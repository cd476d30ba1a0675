/** The event id of a batch step: task id for the queue and dedup key for the consumer. */
module StepIds {

  const PREFIX := "enrich-batch:"

  function Digit(d: nat): char
    requires d < 10
  {
    ('0' as int + d) as char
  }

  function Digits(n: nat): (s: string)
    ensures s != [] && (n >= 10 <==> |s| > 1)
  {
    if n < 10 then [Digit(n)] else Digits(n / 10) + [Digit(n % 10)]
  }

  function StepId(job: string, court: string, pass: nat): string {
    PREFIX + job + ":" + court + ":" + Digits(pass)
  }

  lemma {:induction false} DigitsHaveNoColon(n: nat)
    ensures ':' !in Digits(n)
  {
    if n >= 10 {
      DigitsHaveNoColon(n / 10);
    }
  }

  lemma {:induction false} DigitsInjective(m: nat, n: nat)
    requires Digits(m) == Digits(n)
    ensures m == n
  {
    var s := Digits(m);
    assert s[|s| - 1] == Digit(m % 10) == Digit(n % 10);
    assert m % 10 == n % 10;
    assert (m >= 10) == (|s| > 1) == (n >= 10);
    if m >= 10 {
      assert s[..|s| - 1] == Digits(m / 10) == Digits(n / 10);
      DigitsInjective(m / 10, n / 10);
    }
  }

  /** Of two ways to split a text at a colon, the later colon lies in the tail of the earlier
      split, the earlier one in the head of the later split. */
  lemma ColonInside(a: string, d: string, b: string, e: string)
    requires a + ":" + d == b + ":" + e
    ensures |a| < |b| ==> ':' in d && ':' in b
    ensures |a| == |b| ==> a == b && d == e
  {
    var s := a + ":" + d;
    assert s[|a|] == ':' && s[|b|] == ':';
    if |a| < |b| {
      assert d[|b| - |a| - 1] == s[|b|] && b[|a|] == s[|a|];
    } else if |a| == |b| {
      assert a == s[..|a|] == b && d == s[|a| + 1..] == e;
    }
  }

  lemma LastColon(a: string, d: string, b: string, e: string)
    requires a + ":" + d == b + ":" + e && ':' !in d && ':' !in e
    ensures a == b && d == e
  {
    ColonInside(a, d, b, e);
    ColonInside(b, e, a, d);
  }

  lemma FirstColon(a: string, d: string, b: string, e: string)
    requires a + ":" + d == b + ":" + e && ':' !in a && ':' !in b
    ensures a == b && d == e
  {
    ColonInside(a, d, b, e);
    ColonInside(b, e, a, d);
  }

  /** Exactly when two steps share an id: the same pass, and a job and court that read the same
      once joined by a colon. */
  lemma WhenIdsCollide(job1: string, court1: string, pass1: nat, job2: string, court2: string, pass2: nat)
    ensures StepId(job1, court1, pass1) == StepId(job2, court2, pass2)
            <==> pass1 == pass2 && job1 + ":" + court1 == job2 + ":" + court2
  {
    var a, b := PREFIX + job1 + ":" + court1, PREFIX + job2 + ":" + court2;
    assert StepId(job1, court1, pass1) == a + ":" + Digits(pass1);
    assert StepId(job2, court2, pass2) == b + ":" + Digits(pass2);
    assert a == PREFIX + (job1 + ":" + court1) && b == PREFIX + (job2 + ":" + court2);
    assert a[|PREFIX|..] == job1 + ":" + court1 && b[|PREFIX|..] == job2 + ":" + court2;
    if a + ":" + Digits(pass1) == b + ":" + Digits(pass2) {
      DigitsHaveNoColon(pass1);
      DigitsHaveNoColon(pass2);
      LastColon(a, Digits(pass1), b, Digits(pass2));
      DigitsInjective(pass1, pass2);
    }
  }

  /** Job ids without a colon make the id injective, whatever the court is called. */
  lemma StepIdsAreInjective(job1: string, court1: string, pass1: nat, job2: string, court2: string, pass2: nat)
    requires ':' !in job1 && ':' !in job2
    requires StepId(job1, court1, pass1) == StepId(job2, court2, pass2)
    ensures job1 == job2 && court1 == court2 && pass1 == pass2
  {
    WhenIdsCollide(job1, court1, pass1, job2, court2, pass2);
    FirstColon(job1, court1, job2, court2);
  }

  /** The assumption is needed. */
  lemma AColonInTheJobCollides()
    ensures StepId("a:b", "c", 0) == StepId("a", "b:c", 0)
  {
    WhenIdsCollide("a:b", "c", 0, "a", "b:c", 0);
    assert "a:b" + ":" + "c" == "a" + ":" + "b:c";
  }
}
