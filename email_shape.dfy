/** The email check `/\S+@\S+\.\S+/.test(email)` of the signup, login and
    forgot-password screens. The pattern is not anchored, so the test asks
    whether SOME substring has the shape, not whether the whole string has it.
    `HasEmailShape` states that meaning directly; `Matches` decides it with a
    single left-to-right scan, and `ScanCorrect` proves the two agree. */
module EmailShape {
  import opened Text

  /** No white space in `s[i..j]`. */
  ghost predicate NoSpaceIn(s: string, i: int, j: int)
    requires 0 <= i <= j <= |s|
  {
    forall k :: i <= k < j ==> !IsSpace(s[k])
  }

  /** A match with its `@` at `p` and its `.` at `q`: one non-space character
      before `p` (the shortest `\S+`), at least one between `p` and `q`, one
      after `q`, and no white space anywhere from `p - 1` to `q + 1`. */
  ghost predicate MatchAt(s: string, p: int, q: int) {
    && 1 <= p && p + 2 <= q && q + 2 <= |s|
    && s[p] == '@' && s[q] == '.'
    && NoSpaceIn(s, p - 1, q + 2)
  }

  /** What the unanchored regular expression accepts. */
  ghost predicate HasEmailShape(s: string) {
    exists p, q :: MatchAt(s, p, q)
  }

  /** States of the scanner: where the current run of non-space characters
      stands in the pattern. */
  datatype ScanState =
    | Outside   // at the start, or just after white space
    | Lead      // inside a run, no usable `@` yet
    | At        // the run's first usable `@` was the last character
    | Body      // at least one character after that `@`
    | Dot       // the last character is a `.` at least two after that `@`
    | Matched   // a match has been seen

  function Step(st: ScanState, c: char): ScanState {
    if IsSpace(c) then (if st == Matched then Matched else Outside)
    else match st
      case Outside => Lead
      case Lead => if c == '@' then At else Lead
      case At => Body
      case Body => if c == '.' then Dot else Body
      case Dot => Matched
      case Matched => Matched
  }

  /** The scanner's state after reading all of `s`. */
  function Scan(s: string): ScanState {
    if s == [] then Outside else Step(Scan(s[..|s| - 1]), s[|s| - 1])
  }

  /** The email test as the screens use it. */
  predicate Matches(s: string): (b: bool)
    ensures b <==> HasEmailShape(s)
  {
    ScanCorrect(s);
    Scan(s) == Matched
  }

  // ---- What each scanner state says about the text read so far ----

  /** A usable `@` at `p`: it has a predecessor and nothing from there to the end is white space. */
  ghost predicate AtFrom(t: string, p: int) {
    1 <= p < |t| && t[p] == '@' && NoSpaceIn(t, p - 1, |t|)
  }

  ghost predicate EndsInRun(t: string) {
    |t| >= 1 && !IsSpace(t[|t| - 1])
  }

  ghost predicate HasAt(t: string) {
    exists p :: AtFrom(t, p)
  }

  ghost predicate HasBody(t: string) {
    exists p :: AtFrom(t, p) && p + 2 <= |t|
  }

  ghost predicate HasDot(t: string) {
    exists p :: AtFrom(t, p) && p + 3 <= |t| && t[|t| - 1] == '.'
  }

  ghost predicate Describes(st: ScanState, t: string) {
    match st
    case Matched => HasEmailShape(t)
    case Dot => !HasEmailShape(t) && HasDot(t)
    case Body => !HasEmailShape(t) && HasBody(t) && !HasDot(t)
    case At => !HasEmailShape(t) && HasAt(t) && !HasBody(t)
    case Lead => !HasEmailShape(t) && EndsInRun(t) && !HasAt(t)
    case Outside => !HasEmailShape(t) && !EndsInRun(t)
  }

  // ---- How each of those facts changes when one character is appended ----

  lemma NoSpaceSnoc(u: string, c: char, i: int)
    requires 0 <= i <= |u|
    ensures NoSpaceIn(u + [c], i, |u| + 1) <==> NoSpaceIn(u, i, |u|) && !IsSpace(c)
  {
    var t := u + [c];
    if NoSpaceIn(t, i, |t|) {
      assert !IsSpace(t[|u|]);
      forall k | i <= k < |u| ensures !IsSpace(u[k]) {
        assert t[k] == u[k];
      }
    }
  }

  lemma NoSpacePrefix(u: string, c: char, i: int, j: int)
    requires 0 <= i <= j <= |u|
    ensures NoSpaceIn(u + [c], i, j) <==> NoSpaceIn(u, i, j)
  {
    var t := u + [c];
    assert forall k :: i <= k < j ==> t[k] == u[k];
  }

  lemma AtFromSnoc(u: string, c: char, p: int)
    requires 1 <= p < |u|
    ensures AtFrom(u + [c], p) <==> AtFrom(u, p) && !IsSpace(c)
  {
    NoSpaceSnoc(u, c, p - 1);
  }

  lemma ShapeSnoc(u: string, c: char)
    ensures HasEmailShape(u + [c]) <==> HasEmailShape(u) || (!IsSpace(c) && HasDot(u))
  {
    var t := u + [c];
    if HasEmailShape(t) {
      var p, q :| MatchAt(t, p, q);
      if q + 2 <= |u| {
        NoSpacePrefix(u, c, p - 1, q + 2);
        assert MatchAt(u, p, q);
      } else {
        NoSpaceSnoc(u, c, p - 1);
        assert AtFrom(u, p);
      }
    }
    if HasEmailShape(u) {
      var p, q :| MatchAt(u, p, q);
      NoSpacePrefix(u, c, p - 1, q + 2);
      assert MatchAt(t, p, q);
    }
    if !IsSpace(c) && HasDot(u) {
      var p :| AtFrom(u, p) && p + 3 <= |u| && u[|u| - 1] == '.';
      NoSpaceSnoc(u, c, p - 1);
      assert MatchAt(t, p, |u| - 1);
    }
  }

  lemma RunSnoc(u: string, c: char)
    ensures EndsInRun(u + [c]) <==> !IsSpace(c)
  {
    assert (u + [c])[|u|] == c;
  }

  lemma AtSnoc(u: string, c: char)
    ensures HasAt(u + [c]) <==> !IsSpace(c) && (HasAt(u) || (c == '@' && EndsInRun(u)))
  {
    var t := u + [c];
    if HasAt(t) {
      var p :| AtFrom(t, p);
      if p < |u| {
        AtFromSnoc(u, c, p);
      } else {
        NoSpaceSnoc(u, c, p - 1);
        assert !IsSpace(u[p - 1]);
      }
    }
    if HasAt(u) && !IsSpace(c) {
      var p :| AtFrom(u, p);
      AtFromSnoc(u, c, p);
    }
    if !IsSpace(c) && c == '@' && EndsInRun(u) {
      NoSpaceSnoc(u, c, |u| - 1);
      assert AtFrom(t, |u|);
    }
  }

  lemma BodySnoc(u: string, c: char)
    ensures HasBody(u + [c]) <==> !IsSpace(c) && HasAt(u)
  {
    var t := u + [c];
    if HasBody(t) {
      var p :| AtFrom(t, p) && p + 2 <= |t|;
      AtFromSnoc(u, c, p);
    }
    if !IsSpace(c) && HasAt(u) {
      var p :| AtFrom(u, p);
      AtFromSnoc(u, c, p);
      assert AtFrom(t, p) && p + 2 <= |t|;
    }
  }

  lemma DotSnoc(u: string, c: char)
    ensures HasDot(u + [c]) <==> !IsSpace(c) && c == '.' && HasBody(u)
  {
    var t := u + [c];
    if HasDot(t) {
      var p :| AtFrom(t, p) && p + 3 <= |t| && t[|t| - 1] == '.';
      AtFromSnoc(u, c, p);
    }
    if !IsSpace(c) && c == '.' && HasBody(u) {
      var p :| AtFrom(u, p) && p + 2 <= |u|;
      AtFromSnoc(u, c, p);
      assert AtFrom(t, p) && p + 3 <= |t| && t[|t| - 1] == '.';
    }
  }

  /** One step of the scanner keeps its state truthful. */
  lemma StepDescribes(st: ScanState, u: string, c: char)
    requires Describes(st, u)
    ensures Describes(Step(st, c), u + [c])
  {
    ShapeSnoc(u, c);
    RunSnoc(u, c);
    AtSnoc(u, c);
    BodySnoc(u, c);
    DotSnoc(u, c);
    // the facts are nested: a dot implies a body, a body an `@`, an `@` a run
    if HasDot(u) {
      var p :| AtFrom(u, p) && p + 3 <= |u| && u[|u| - 1] == '.';
      assert AtFrom(u, p) && p + 2 <= |u|;
    }
    if HasBody(u) {
      var p :| AtFrom(u, p) && p + 2 <= |u|;
      assert HasAt(u);
    }
    if HasAt(u) {
      var p :| AtFrom(u, p);
      assert !IsSpace(u[|u| - 1]);
    }
  }

  lemma {:induction false} ScanDescribes(s: string)
    ensures Describes(Scan(s), s)
  {
    if s == [] {
      assert !HasEmailShape(s);
    } else {
      var u, c := s[..|s| - 1], s[|s| - 1];
      assert s == u + [c];
      ScanDescribes(u);
      StepDescribes(Scan(u), u, c);
    }
  }

  /** The scanner accepts exactly the strings that hold a match of the pattern. */
  lemma ScanCorrect(s: string)
    ensures Scan(s) == Matched <==> HasEmailShape(s)
  {
    ScanDescribes(s);
  }

  /** The address the login and forgot-password mocks accept has the shape. */
  lemma DemoAddressHasShape()
    ensures Matches("john.doe@gmail.com")
  {
    var s := "john.doe@gmail.com";
    assert MatchAt(s, 8, 14);
  }

  /** Being unanchored, the test accepts text around an address. */
  lemma UnanchoredMatch()
    ensures Matches("to: a@b.c !")
  {
    assert MatchAt("to: a@b.c !", 5, 7);
  }

  /** White space between the `@` part and the `.` part breaks the shape. */
  lemma SpaceBreaksShape()
    ensures !Matches("a@b .c")
  {
    var w := "a@b .c";
    forall p, q ensures !MatchAt(w, p, q) {
      if 1 <= p && p + 2 <= q && q + 2 <= |w| && w[p] == '@' && w[q] == '.' {
        assert p == 1 && q == 4 && IsSpace(w[3]);
      }
    }
  }
}
