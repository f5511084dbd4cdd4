/** The email check of the create handlers: the pattern /^[^\s@]+@[^\s@]+\.[^\s@]+$/
    and an equivalent plain reading of it (one '@', no white space, a '.' strictly
    inside the domain part). */
module Email {
  import opened Values

  // The email pattern /^[^\s@]+@[^\s@]+\.[^\s@]+$/

  /** One character of the class `[^\s@]`. */
  predicate PlainChar(c: char) {
    !IsSpace(c) && c != '@'
  }

  /** `[^\s@]+` matching all of `s`. */
  predicate PlainRun(s: string) {
    |s| > 0 && forall i :: 0 <= i < |s| ==> PlainChar(s[i])
  }

  /** `emailRegex.test(s)`: `s` splits as run '@' run '.' run. The runs may hold dots,
      so the '.' may be any dot of the part after '@' that leaves both sides non-empty. */
  predicate EmailRegexTest(s: string) {
    exists at, dot | 0 < at && at + 1 < dot && dot + 1 < |s| :: RegexSplit(s, at, dot)
  }

  /** The match of the pattern with '@' at `at` and the literal '.' at `dot`. */
  predicate RegexSplit(s: string, at: nat, dot: nat)
    requires at < dot < |s|
  {
    s[at] == '@' && s[dot] == '.' && PlainRun(s[..at]) && PlainRun(s[at + 1..dot]) && PlainRun(s[dot + 1..])
  }

  /** The number of occurrences of `c` in `s`. */
  function Count(s: string, c: char): nat {
    if s == "" then 0 else (if s[0] == c then 1 else 0) + Count(s[1..], c)
  }

  /** `s.indexOf(c)`, with |s| for "not found". */
  function IndexOf(s: string, c: char): (k: nat)
    ensures k <= |s|
    ensures k < |s| ==> s[k] == c
    ensures forall i :: 0 <= i < k ==> s[i] != c
  {
    if s == "" then 0 else if s[0] == c then 0 else 1 + IndexOf(s[1..], c)
  }

  /** The domain has a '.' that is neither its first nor its last character. */
  predicate InnerDot(d: string) {
    exists k | 0 < k < |d| - 1 :: d[k] == '.'
  }

  /** The plain reading of the email rule: no white space, exactly one '@', something
      before it, and a dot inside the part after it. */
  predicate EmailShape(s: string) {
    && NoSpace(s)
    && Count(s, '@') == 1
    && var at := IndexOf(s, '@');
    && 0 < at < |s|
    && InnerDot(s[at + 1..])
  }

  lemma {:induction false} CountNone(s: string, c: char)
    ensures Count(s, c) == 0 <==> c !in s
  {
    if s != "" {
      CountNone(s[1..], c);
      assert c in s <==> s[0] == c || c in s[1..];
    }
  }

  lemma {:induction false} CountSplit(s: string, k: nat, c: char)
    requires k < |s|
    ensures Count(s, c) == Count(s[..k], c) + (if s[k] == c then 1 else 0) + Count(s[k + 1..], c)
  {
    if k > 0 {
      CountSplit(s[1..], k - 1, c);
      assert s[1..][..k - 1] == s[1..k];
      assert s[1..][k - 1 + 1..] == s[k + 1..];
      assert s[..k][1..] == s[1..k];
    }
  }

  /** In a match, the only '@' is at `at` and there is no white space. */
  lemma RegexSplitChars(s: string, at: nat, dot: nat)
    requires 0 < at && at + 1 < dot && dot + 1 < |s| && RegexSplit(s, at, dot)
    ensures forall i :: 0 <= i < |s| ==> !IsSpace(s[i]) && (s[i] == '@' <==> i == at)
  {
    var local, mid, tail := s[..at], s[at + 1..dot], s[dot + 1..];
    forall i | 0 <= i < |s| ensures !IsSpace(s[i]) && (s[i] == '@' <==> i == at) {
      if i < at { assert s[i] == local[i]; }
      else if at < i < dot { assert s[i] == mid[i - at - 1]; }
      else if dot < i { assert s[i] == tail[i - dot - 1]; }
    }
  }

  /** Every string the pattern accepts has the plain shape. */
  lemma RegexImpliesShape(s: string)
    requires EmailRegexTest(s)
    ensures EmailShape(s)
  {
    var at, dot :| 0 < at && at + 1 < dot && dot + 1 < |s| && RegexSplit(s, at, dot);
    RegexSplitChars(s, at, dot);
    var rest := s[at + 1..];
    assert '@' !in rest by {
      forall i | 0 <= i < |rest| ensures rest[i] != '@' { assert rest[i] == s[at + 1 + i]; }
    }
    assert '@' !in s[..at] by {
      forall i | 0 <= i < at ensures s[..at][i] != '@' { assert s[..at][i] == s[i]; }
    }
    CountNone(rest, '@');
    CountNone(s[..at], '@');
    CountSplit(s, at, '@');
    assert rest[dot - at - 1] == '.';
  }

  /** Every string of the plain shape is accepted by the pattern. */
  lemma ShapeImpliesRegex(s: string)
    requires EmailShape(s)
    ensures EmailRegexTest(s)
  {
    var at := IndexOf(s, '@');
    var rest := s[at + 1..];
    var k :| 0 < k < |rest| - 1 && rest[k] == '.';
    var dot := at + 1 + k;
    CountSplit(s, at, '@');
    CountNone(s[..at], '@');
    CountNone(rest, '@');
    var local, mid, tail := s[..at], s[at + 1..dot], s[dot + 1..];
    assert s[dot] == '.';
    assert 0 < at && at + 1 < dot && dot + 1 < |s|;
    assert PlainRun(local) by {
      forall i | 0 <= i < |local| ensures PlainChar(local[i]) { assert local[i] == s[i]; }
    }
    assert PlainRun(mid) by {
      forall i | 0 <= i < |mid| ensures PlainChar(mid[i]) {
        assert mid[i] == rest[i] == s[at + 1 + i];
      }
    }
    assert PlainRun(tail) by {
      forall i | 0 <= i < |tail| ensures PlainChar(tail[i]) {
        assert tail[i] == rest[k + 1 + i] == s[dot + 1 + i];
      }
    }
    assert RegexSplit(s, at, dot);
  }

  /** The pattern and the plain reading accept the same strings. */
  lemma EmailRegexIff(s: string)
    ensures EmailRegexTest(s) <==> EmailShape(s)
  {
    if EmailRegexTest(s) { RegexImpliesShape(s); }
    if EmailShape(s) { ShapeImpliesRegex(s); }
  }

  /** Lower-casing moves no '@': the count and the first position stay. */
  lemma {:induction false} LowerKeepsAt(s: string)
    ensures Count(Lower(s), '@') == Count(s, '@')
    ensures IndexOf(Lower(s), '@') == IndexOf(s, '@')
  {
    if s != "" {
      var l := Lower(s);
      assert l[0] == LowerChar(s[0]);
      assert l[1..] == Lower(s[1..]);
      LowerKeepsAt(s[1..]);
    }
  }

  /** The lower-cased form of an accepted email is accepted: lower-casing keeps
      white space, '@' and '.' where they are. */
  lemma LowerShape(s: string)
    requires EmailShape(s)
    ensures EmailShape(Lower(s))
  {
    var l := Lower(s);
    LowerKeepsNoSpace(s);
    LowerKeepsAt(s);
    var at := IndexOf(s, '@');
    var k :| 0 < k < |s[at + 1..]| - 1 && s[at + 1..][k] == '.';
    assert l[at + 1..][k] == LowerChar(s[at + 1 + k]);
  }
}
