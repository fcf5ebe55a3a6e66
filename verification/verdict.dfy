/**
 The risk levels shared by the URL, e-mail and phone analysers. The three
 ordered levels are 安全 (Safe), 注意 (Caution) and 危険 (Dangerous); エラー
 (Error, an unparseable URL) and 緊急 (Emergency, an emergency service
 number) are side states outside that order.
 */
module Verdict {

  datatype Level = Safe | Caution | Dangerous | Emergency | Error
  {
    /** One of 安全, 注意, 危険. */
    predicate Ordered()
    {
      Safe? || Caution? || Dangerous?
    }

    /** Position in the order 安全 < 注意 < 危険. */
    function Rank(): nat
      requires Ordered()
    {
      match this
      case Safe => 0
      case Caution => 1
      case Dangerous => 2
    }
  }

  /** `b` is at least as severe as `a` in the order 安全 < 注意 < 危険. */
  predicate NoLower(a: Level, b: Level)
  {
    a.Ordered() && b.Ordered() && a.Rank() <= b.Rank()
  }

  /**
   The only escalation the pattern, http, prefix and international rules
   perform: 安全 becomes 注意 and every other level is kept.
   */
  function RaiseToCaution(l: Level): (r: Level)
    ensures l.Ordered() ==> NoLower(l, r) && r != Safe
    ensures l != Safe ==> r == l
  {
    if l == Safe then Caution else l
  }
}
