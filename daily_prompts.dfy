/**
 * The daily prompt (src/lib/prompts.ts): a fixed pool of ten prompts and a
 * choice by day of the year. The day is counted from the day before
 * January 1, so January 1 is day 1.
 */
module DailyPrompts {

  datatype DailyPrompt = DailyPrompt(id: string, text: string)

  const Prompts: seq<DailyPrompt> := [
    DailyPrompt("clarity-1", "今いちばん頭から離れないことは何ですか？なぜそれが気になっていますか？"),
    DailyPrompt("values-1", "最近の出来事で『自分らしい』と感じた瞬間はいつでしたか？"),
    DailyPrompt("relationships-1", "最近の人間関係でモヤッとしたことは何ですか？その背景には何がありますか？"),
    DailyPrompt("work-1", "今日の仕事や学びで最もエネルギーを使った場面はどこでしたか？"),
    DailyPrompt("self-care-1", "自分のコンディションを整えるために、今日できた小さなことは何ですか？"),
    DailyPrompt("future-1", "3ヶ月後の自分にどんな状態でいてほしいですか？今できる一歩は何でしょう？"),
    DailyPrompt("gratitude-1", "最近ありがたいと感じたことは何ですか？その理由は？"),
    DailyPrompt("decision-1", "今、決めかねていることはありますか？迷いの正体は何でしょう？"),
    DailyPrompt("growth-1", "最近の挑戦で学んだことは何ですか？それは今後どう活かせそうですか？"),
    DailyPrompt("rest-1", "休むことに対して感じることは何ですか？罪悪感や安心感はありますか？")
  ]

  /** `day % PROMPTS.length`: a valid pool index congruent to the day. */
  function PromptIndex(day: nat): (i: nat)
    ensures i < |Prompts|
    ensures (day - i) % |Prompts| == 0
  {
    day % |Prompts|
  }

  /** `getDailyPrompt`: always one of the pool's prompts. */
  function GetDailyPrompt(day: nat): (p: DailyPrompt)
    ensures p in Prompts
  {
    Prompts[PromptIndex(day)]
  }

  /** The pool holds ten prompts with pairwise distinct ids. */
  lemma PoolHasTenDistinctIds()
    ensures |Prompts| == 10
    ensures forall i, j :: 0 <= i < j < |Prompts| ==> Prompts[i].id != Prompts[j].id
  {
  }

  /** Days `d` and `d + 10 k` get the same prompt. */
  lemma {:induction false} Periodic(day: nat, k: nat)
    ensures GetDailyPrompt(day + |Prompts| * k) == GetDailyPrompt(day)
  {
    if k > 0 {
      Periodic(day, k - 1);
      var m := day + |Prompts| * (k - 1);
      assert day + |Prompts| * k == m + |Prompts|;
      OnePeriod(m);
    }
  }

  /** Ten days later, the same prompt. */
  lemma OnePeriod(day: nat)
    ensures PromptIndex(day + |Prompts|) == PromptIndex(day)
  {
    assert |Prompts| == 10;
  }

  /** Consecutive days take consecutive pool entries, wrapping after the last. */
  lemma NextDayNextPrompt(day: nat)
    ensures PromptIndex(day + 1) == (PromptIndex(day) + 1) % |Prompts|
  {
  }

  /** January 1 (day 1) gets the second entry, `values-1`, not the first. */
  lemma NewYearsDayPrompt()
    ensures GetDailyPrompt(1).id == "values-1"
  {
  }

  /**
   * The rotation restarts with each year: December 31 is day 365 (366 in a
   * leap year), and the next day, January 1, is day 1 again, so the
   * entries that would have come next are skipped.
   */
  lemma YearBoundarySkips()
    ensures PromptIndex(365) == 5 && PromptIndex(366) == 6 && PromptIndex(1) == 1
    ensures PromptIndex(1) != (PromptIndex(365) + 1) % |Prompts|
    ensures PromptIndex(1) != (PromptIndex(366) + 1) % |Prompts|
  {
  }
}
