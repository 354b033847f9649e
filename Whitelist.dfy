/** `matchWhitelist`: the `R.reduce` fold that looks for an allow-list entry
    matching the caller's email. */
module Whitelist {
  import opened Js
  import opened Host

  /** An allow-list entry as `R.type` tells them apart. */
  datatype Entry = Literal(s: string) | Pattern(re: RegExp) | Other

  /** What JavaScript throws when `email.toLowerCase()` is reached and `email`
      is not a string. */
  const TypeError: string := "TypeError"

  /** Whether one entry accepts the email, independently of the fold: a literal
      equals it when both are lowered, a pattern's `test` succeeds on it, any
      other entry never matches. */
  predicate Matches(rule: Entry, email: Option<Value>, env: Env) {
    match rule
    case Literal(s) => IsText(email) && Lower(s) == Lower(email.value.s)
    case Pattern(re) => env.patternTest(re, email)
    case Other => false
  }

  predicate AnyMatch(rules: seq<Entry>, email: Option<Value>, env: Env) {
    exists i :: 0 <= i < |rules| && Matches(rules[i], email, env)
  }

  /** The fold reaches a literal entry, with nothing matched before it, while
      the email is not a string: `toLowerCase` then throws. */
  predicate Throws(rules: seq<Entry>, email: Option<Value>, env: Env) {
    !IsText(email) &&
    exists i :: 0 <= i < |rules| && rules[i].Literal? && forall j :: 0 <= j < i ==> !Matches(rules[j], email, env)
  }

  /** The reducer of `matchWhitelist`: once true stay true, else test the entry. */
  function Step(acc: bool, rule: Entry, email: Option<Value>, env: Env): Result<bool, string> {
    if acc then Ok(true)
    else
      match rule
      case Pattern(re) => Ok(env.patternTest(re, email))
      case Literal(s) =>
        if IsText(email) then Ok(Lower(s) == Lower(email.value.s)) else Err(TypeError)
      case Other => Ok(false)
  }

  /** `R.reduce(step, acc, rules)`, left to right, stopping at an exception. */
  function Reduce(acc: bool, rules: seq<Entry>, email: Option<Value>, env: Env): (r: Result<bool, string>)
    ensures r.Err? ==> r.error == TypeError && !IsText(email)
    decreases |rules|
  {
    if rules == [] then Ok(acc)
    else
      match Step(acc, rules[0], email, env)
      case Err(e) => Err(e)
      case Ok(next) => Reduce(next, rules[1..], email, env)
  }

  /** `matchWhitelist(email)` for the configured whitelist, `None` when it is
      not an array. */
  function MatchWhitelist(whitelist: Option<seq<Entry>>, email: Option<Value>, env: Env): (r: Result<bool, string>)
    ensures whitelist.None? ==> r == Ok(false)
    ensures whitelist == Some([]) ==> r == Ok(false)
    ensures r.Err? ==> r.error == TypeError && !IsText(email)
  {
    match whitelist
    case None => Ok(false)
    case Some(rules) => Reduce(false, rules, email, env)
  }

  /** Once the accumulator is true the fold stays true. */
  lemma {:induction false} ReduceStaysTrue(rules: seq<Entry>, email: Option<Value>, env: Env)
    ensures Reduce(true, rules, email, env) == Ok(true)
    decreases |rules|
  {
    if rules != [] {
      ReduceStaysTrue(rules[1..], email, env);
    }
  }

  /** The fold from false, against the reference description: it throws exactly
      when `Throws` holds, and otherwise says whether some entry matches. */
  lemma {:induction false} ReduceFromFalse(rules: seq<Entry>, email: Option<Value>, env: Env)
    ensures Reduce(false, rules, email, env) ==
            if Throws(rules, email, env) then Err(TypeError) else Ok(AnyMatch(rules, email, env))
    decreases |rules|
  {
    if rules != [] {
      var rule, rest := rules[0], rules[1..];
      assert forall i :: 0 < i < |rules| ==> rules[i] == rest[i - 1];
      if Matches(rule, email, env) {
        assert Step(false, rule, email, env) == Ok(true);
        ReduceStaysTrue(rest, email, env);
        assert AnyMatch(rules, email, env);
        forall i | 0 <= i < |rules| && rules[i].Literal? && !IsText(email)
          ensures exists j :: 0 <= j < i && Matches(rules[j], email, env)
        {
          assert Matches(rules[0], email, env);
        }
      } else if rule.Literal? && !IsText(email) {
        assert Step(false, rule, email, env) == Err(TypeError);
        assert rules[0].Literal?;
      } else {
        assert Step(false, rule, email, env) == Ok(false);
        ReduceFromFalse(rest, email, env);
        assert AnyMatch(rules, email, env) == AnyMatch(rest, email, env) by {
          if AnyMatch(rules, email, env) {
            var i :| 0 <= i < |rules| && Matches(rules[i], email, env);
            assert i != 0 && Matches(rest[i - 1], email, env);
          }
          if AnyMatch(rest, email, env) {
            var i :| 0 <= i < |rest| && Matches(rest[i], email, env);
            assert Matches(rules[i + 1], email, env);
          }
        }
        assert Throws(rules, email, env) == Throws(rest, email, env) by {
          if Throws(rules, email, env) {
            var i :| 0 <= i < |rules| && rules[i].Literal? && forall j :: 0 <= j < i ==> !Matches(rules[j], email, env);
            assert i != 0;
            assert rest[i - 1].Literal? && forall j :: 0 <= j < i - 1 ==> !Matches(rest[j], email, env);
          }
          if Throws(rest, email, env) {
            var i :| 0 <= i < |rest| && rest[i].Literal? && forall j :: 0 <= j < i ==> !Matches(rest[j], email, env);
            assert rules[i + 1].Literal?;
            assert forall j :: 0 <= j < i + 1 ==> !Matches(rules[j], email, env);
          }
        }
      }
    }
  }

  /** For a string email the whitelist accepts exactly when some entry matches:
      it never throws and does not depend on where the matching entry stands. */
  lemma MatchIffSomeEntry(rules: seq<Entry>, email: string, env: Env)
    ensures MatchWhitelist(Some(rules), Some(Str(email)), env) == Ok(exists i :: 0 <= i < |rules| && Matches(rules[i], Some(Str(email)), env))
  {
    ReduceFromFalse(rules, Some(Str(email)), env);
  }

  /** A literal entry matches the email under any change of letter case. */
  lemma LiteralMatchIgnoresCase(rules: seq<Entry>, email: string, env: Env)
    requires Literal(Upper(email)) in rules || Literal(Lower(email)) in rules
    ensures MatchWhitelist(Some(rules), Some(Str(email)), env) == Ok(true)
  {
    LowerIgnoresCase(email);
    var i :| 0 <= i < |rules| && (rules[i] == Literal(Upper(email)) || rules[i] == Literal(Lower(email)));
    assert Matches(rules[i], Some(Str(email)), env);
    MatchIffSomeEntry(rules, email, env);
  }

  /** For a string email, reordering the whitelist does not change the result. */
  lemma MatchOrderIrrelevant(a: seq<Entry>, b: seq<Entry>, email: string, env: Env)
    requires multiset(a) == multiset(b)
    ensures MatchWhitelist(Some(a), Some(Str(email)), env) == MatchWhitelist(Some(b), Some(Str(email)), env)
  {
    var e := Some(Str(email));
    MatchIffSomeEntry(a, email, env);
    MatchIffSomeEntry(b, email, env);
    if AnyMatch(a, e, env) {
      var i :| 0 <= i < |a| && Matches(a[i], e, env);
      assert a[i] in multiset(b);
      var j :| 0 <= j < |b| && b[j] == a[i];
      assert Matches(b[j], e, env);
    }
    if AnyMatch(b, e, env) {
      var j :| 0 <= j < |b| && Matches(b[j], e, env);
      assert b[j] in multiset(a);
      var i :| 0 <= i < |a| && a[i] == b[j];
      assert Matches(a[i], e, env);
    }
  }

  /** When the email is not a string, order does matter: a pattern that matches
      ahead of a literal wins, the same literal ahead of it throws. */
  lemma OrderMattersForNonTextEmail(re: RegExp, s: string, email: Option<Value>, env: Env)
    requires !IsText(email)
    requires env.patternTest(re, email)
    ensures MatchWhitelist(Some([Pattern(re), Literal(s)]), email, env) == Ok(true)
    ensures MatchWhitelist(Some([Literal(s), Pattern(re)]), email, env) == Err(TypeError)
  {
    assert [Pattern(re), Literal(s)][1..] == [Literal(s)];
    ReduceStaysTrue([Literal(s)], email, env);
  }
}
