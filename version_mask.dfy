/**
 * The version-masking rewrite the server applies to every line the engine
 * prints before sending it on. The pattern is anchored at the start: an
 * optional group `pre` of any characters, the word Stockfish and a space,
 * digits, a dot, digits, then a group `app` of any characters, up to `$`.
 * The replacement keeps `pre` and `app` and puts the word Remote where the
 * two numbers were.
 *
 * Python's `re` semantics are written out: `.` never matches a newline,
 * `$` matches at the end of the text or just before a final newline, the
 * pattern is anchored at the start and not in MULTILINE mode (so there is
 * at most one substitution), and every quantifier is greedy (so `pre`
 * takes the longest possible text and the rightmost token is the one
 * masked).
 */
module VersionMask {
  import opened Common

  /** The literal that opens the version token: the group `name` and the space after it. */
  const Lead: string := "Stockfish "

  /** What replaces the two numbers and the dot between them. */
  const Marker: string := "Remote"

  /** One character of a number: an ASCII digit. */
  predicate IsDigit(c: char)
  {
    '0' <= c <= '9'
  }

  /** A number: one or more ASCII digits. */
  predicate IsDigits(s: string)
  {
    |s| > 0 && forall i :: 0 <= i < |s| ==> IsDigit(s[i])
  }

  /**
   * One way of cutting a line along the pattern: `pre`, the two version
   * numbers, `app`, and whatever follows the point where `$` matched.
   */
  datatype Banner = Banner(pre: string, major: string, minor: string, app: string, tail: string)

  /** The part of the line the pattern consumes. */
  function Core(b: Banner): string
  {
    b.pre + Lead + b.major + "." + b.minor + b.app
  }

  function Text(b: Banner): string
  {
    Core(b) + b.tail
  }

  /** The line after the substitution: the version token becomes the marker, all else stays. */
  function Masked(b: Banner): string
  {
    b.pre + Lead + Marker + b.app + b.tail
  }

  /** `b` is an assignment of the groups under which the pattern matches `line`. */
  predicate Matching(line: string, b: Banner)
  {
    && line == Text(b)
    && '\n' !in b.pre
    && '\n' !in b.app
    && IsDigits(b.major)
    && IsDigits(b.minor)
    && (b.tail == "" || b.tail == "\n")
  }

  /**
   * The assignment a backtracking engine with greedy quantifiers settles on:
   * no other matching assignment has a longer `pre`, nor, with the same
   * `pre`, a longer second number.
   */
  ghost predicate Chosen(line: string, b: Banner)
  {
    && Matching(line, b)
    && forall c :: Matching(line, c) ==>
         |c.pre| < |b.pre| || (|c.pre| == |b.pre| && |c.minor| <= |b.minor|)
  }

  /** The text before the point where `$` can match: the whole line, less one final newline. */
  function Body(line: string): string
  {
    if |line| > 0 && line[|line| - 1] == '\n' then line[..|line| - 1] else line
  }

  function Tail(line: string): string
  {
    if |line| > 0 && line[|line| - 1] == '\n' then "\n" else ""
  }

  /** The length of the longest run of digits in `s` that starts at `i`. */
  function DigitRun(s: string, i: nat): (n: nat)
    requires i <= |s|
    ensures i + n <= |s|
    ensures forall k :: i <= k < i + n ==> IsDigit(s[k])
    ensures i + n == |s| || !IsDigit(s[i + n])
    decreases |s| - i
  {
    if i < |s| && IsDigit(s[i]) then 1 + DigitRun(s, i + 1) else 0
  }

  /**
   * The version token `Stockfish <digits>.<digits>` starting at `i` of `x`,
   * as the lengths of its two maximal digit runs, if there is one.
   */
  function TokenAt(x: string, i: nat): (r: Option<(nat, nat)>)
    requires i <= |x|
    ensures r.Some? ==> i + |Lead| + r.value.0 + 1 + r.value.1 <= |x|
  {
    if i + |Lead| <= |x| && x[i..i + |Lead|] == Lead then
      var m := DigitRun(x, i + |Lead|);
      var dot := i + |Lead| + m;
      if 0 < m && dot < |x| && x[dot] == '.' then
        var n := DigitRun(x, dot + 1);
        if 0 < n then Some((m, n)) else None
      else None
    else None
  }

  /** What a token found at `i` consists of: the lead, a maximal digit run, a dot, a maximal digit run. */
  lemma TokenLayout(x: string, i: nat)
    requires i <= |x| && TokenAt(x, i).Some?
    ensures var (m, n) := TokenAt(x, i).value;
      var dot := i + |Lead| + m;
      && x[i..i + |Lead|] == Lead
      && IsDigits(x[i + |Lead|..dot])
      && x[dot] == '.'
      && IsDigits(x[dot + 1..dot + 1 + n])
      && (dot + 1 + n == |x| || !IsDigit(x[dot + 1 + n]))
  {
  }

  /** The rightmost position at or before `i` where a version token starts. */
  function LastToken(x: string, i: nat): (r: Option<nat>)
    requires i <= |x|
    ensures r.Some? ==> r.value <= i && TokenAt(x, r.value).Some?
    ensures forall j: nat :: (r.None? || r.value < j) && j <= i ==> TokenAt(x, j).None?
  {
    if TokenAt(x, i).Some? then Some(i)
    else if i == 0 then None
    else LastToken(x, i - 1)
  }

  /** Whether the pattern matches `line`, and if so the groups it captures. */
  function Parse(line: string): Option<Banner>
  {
    var x := Body(line);
    if '\n' in x then None
    else match LastToken(x, |x|)
      case None => None
      case Some(i) => Some(Cut(x, i, TokenAt(x, i).value, Tail(line)))
  }

  /** The groups of a match whose token starts at `i` of `x` and has digit runs of lengths `mn`. */
  function Cut(x: string, i: nat, mn: (nat, nat), tail: string): Banner
    requires i + |Lead| + mn.0 + 1 + mn.1 <= |x|
  {
    var dot := i + |Lead| + mn.0;
    Banner(x[..i], x[i + |Lead|..dot], x[dot + 1..dot + 1 + mn.1], x[dot + 1 + mn.1..], tail)
  }

  /** The line as sent: masked when the pattern matches, unchanged otherwise. */
  function Rewrite(line: string): string
  {
    match Parse(line)
    case None => line
    case Some(b) => Masked(b)
  }

  lemma BodyAndTail(line: string)
    ensures line == Body(line) + Tail(line)
    ensures Tail(line) == "" || Tail(line) == "\n"
  {
  }

  lemma {:induction false} DigitRunExact(s: string, i: nat, k: nat)
    requires i + k <= |s|
    requires forall j :: i <= j < i + k ==> IsDigit(s[j])
    requires i + k == |s| || !IsDigit(s[i + k])
    ensures DigitRun(s, i) == k
    decreases k
  {
    if k > 0 {
      DigitRunExact(s, i + 1, k - 1);
    }
  }

  lemma {:induction false} DigitRunAtLeast(s: string, i: nat, k: nat)
    requires i + k <= |s|
    requires forall j :: i <= j < i + k ==> IsDigit(s[j])
    ensures DigitRun(s, i) >= k
    decreases k
  {
    if k > 0 {
      DigitRunAtLeast(s, i + 1, k - 1);
    }
  }

  /** Where each group sits inside the consumed text. */
  lemma CoreLayout(b: Banner)
    ensures var y := Core(b);
      var p := |b.pre|;
      var dot := p + |Lead| + |b.major|;
      var e := dot + 1 + |b.minor|;
      && |y| == e + |b.app|
      && y[..p] == b.pre
      && y[p..p + |Lead|] == Lead
      && y[p + |Lead|..dot] == b.major
      && y[dot] == '.'
      && y[dot + 1..e] == b.minor
      && y[e..] == b.app
  {
    var y := Core(b);
    var p := |b.pre|;
    var dot := p + |Lead| + |b.major|;
    var e := dot + 1 + |b.minor|;
    assert y == (((((b.pre + Lead) + b.major) + ".") + b.minor) + b.app);
    assert y[..p] == b.pre;
    assert y[p..p + |Lead|] == Lead;
    assert y[p + |Lead|..dot] == b.major;
    assert y[dot + 1..e] == b.minor;
    assert y[e..] == b.app;
  }

  /** The groups of a matching assignment hold no newline, so neither does the consumed text. */
  lemma CoreHasNoNewline(b: Banner)
    requires '\n' !in b.pre && '\n' !in b.app && IsDigits(b.major) && IsDigits(b.minor)
    ensures '\n' !in Core(b)
  {
  }

  /** Under a matching assignment, the consumed text is exactly the line less a final newline. */
  lemma MatchingSplit(line: string, b: Banner)
    requires Matching(line, b)
    ensures Body(line) == Core(b) && Tail(line) == b.tail
  {
    CoreHasNoNewline(b);
    var y := Core(b);
    assert |y| > 0;
    assert y[|y| - 1] in y;
    assert line == y + b.tail;
    if b.tail == "\n" {
      assert line[..|line| - 1] == y;
    }
  }

  /**
   * Under a matching assignment a version token starts right after `pre`,
   * its first digit run is the assignment's first number, and its second
   * reaches at least as far as the assignment's second number.
   */
  lemma MatchingToken(b: Banner)
    requires IsDigits(b.major) && IsDigits(b.minor)
    ensures TokenAt(Core(b), |b.pre|).Some?
    ensures TokenAt(Core(b), |b.pre|).value.0 == |b.major|
    ensures TokenAt(Core(b), |b.pre|).value.1 >= |b.minor|
    ensures b.app == "" || !IsDigit(b.app[0]) ==> TokenAt(Core(b), |b.pre|).value.1 == |b.minor|
  {
    CoreLayout(b);
    MajorRun(b);
    MinorRun(b);
  }

  /** The first number of an assignment is a maximal digit run of the consumed text. */
  lemma MajorRun(b: Banner)
    requires IsDigits(b.major)
    ensures DigitRun(Core(b), |b.pre| + |Lead|) == |b.major|
  {
    var y := Core(b);
    CoreLayout(b);
    var start := |b.pre| + |Lead|;
    var dot := start + |b.major|;
    forall j | start <= j < dot
      ensures IsDigit(y[j])
    {
      assert y[j] == y[start..dot][j - start];
    }
    DigitRunExact(y, start, |b.major|);
  }

  /**
   * The second number of an assignment lies inside the digit run that
   * starts after the dot, and is all of it when `app` does not start with a digit.
   */
  lemma MinorRun(b: Banner)
    requires IsDigits(b.minor)
    ensures var start := |b.pre| + |Lead| + |b.major| + 1;
      && start <= |Core(b)|
      && DigitRun(Core(b), start) >= |b.minor|
      && (b.app == "" || !IsDigit(b.app[0]) ==> DigitRun(Core(b), start) == |b.minor|)
  {
    var y := Core(b);
    CoreLayout(b);
    var start := |b.pre| + |Lead| + |b.major| + 1;
    var e := start + |b.minor|;
    forall j | start <= j < e
      ensures IsDigit(y[j])
    {
      assert y[j] == y[start..e][j - start];
    }
    DigitRunAtLeast(y, start, |b.minor|);
    if b.app == "" || !IsDigit(b.app[0]) {
      assert e < |y| ==> y[e] == y[e..][0] == b.app[0];
      DigitRunExact(y, start, |b.minor|);
    }
  }

  /** The facts about a matching assignment the lemmas below rest on, stated on the line itself. */
  lemma MatchingLayout(line: string, b: Banner)
    requires Matching(line, b)
    ensures Tail(line) == b.tail
    ensures '\n' !in Body(line)
    ensures |b.pre| <= |Body(line)|
    ensures TokenAt(Body(line), |b.pre|).Some?
    ensures TokenAt(Body(line), |b.pre|).value.0 == |b.major|
    ensures TokenAt(Body(line), |b.pre|).value.1 >= |b.minor|
  {
    MatchingSplit(line, b);
    CoreHasNoNewline(b);
    MatchingToken(b);
  }

  lemma SliceHasNoNewline(x: string, a: nat, b: nat)
    requires a <= b <= |x| && '\n' !in x
    ensures '\n' !in x[a..b]
  {
    forall k | 0 <= k < b - a
      ensures x[a..b][k] != '\n'
    {
      assert x[a..b][k] == x[a + k];
    }
  }

  /** Cutting a text at a token and putting the groups back together gives the text. */
  lemma CutCore(x: string, i: nat, mn: (nat, nat), tail: string)
    requires i + |Lead| + mn.0 + 1 + mn.1 <= |x|
    requires x[i..i + |Lead|] == Lead && x[i + |Lead| + mn.0] == '.'
    ensures Core(Cut(x, i, mn, tail)) == x
  {
    var (m, n) := mn;
    var lead := i + |Lead|;
    var dot := lead + m;
    var e := dot + 1 + n;
    var b := Cut(x, i, mn, tail);
    assert x[dot..dot + 1] == ".";
    assert b.pre == x[0..i] && b.app == x[e..|x|];
    SliceJoin(x, 0, i, lead);
    SliceJoin(x, 0, lead, dot);
    SliceJoin(x, 0, dot, dot + 1);
    SliceJoin(x, 0, dot + 1, e);
    SliceJoin(x, 0, e, |x|);
  }

  lemma SliceJoin(x: string, a: nat, b: nat, c: nat)
    requires a <= b <= c <= |x|
    ensures x[a..b] + x[b..c] == x[a..c]
  {
  }

  /** The groups of a cut at a token of a newline-free text are what the pattern demands of them. */
  lemma CutGroups(x: string, i: nat, mn: (nat, nat), tail: string)
    requires i <= |x| && TokenAt(x, i) == Some(mn)
    requires '\n' !in x
    ensures var b := Cut(x, i, mn, tail);
      && '\n' !in b.pre && '\n' !in b.app
      && IsDigits(b.major) && IsDigits(b.minor)
      && (b.app == "" || !IsDigit(b.app[0]))
  {
    var e := i + |Lead| + mn.0 + 1 + mn.1;
    TokenLayout(x, i);
    SliceHasNoNewline(x, 0, i);
    assert x[..i] == x[0..i];
    SliceHasNoNewline(x, e, |x|);
    assert x[e..] == x[e..|x|];
  }

  /** Cutting a newline-free text at a token gives a matching assignment for it. */
  lemma CutMatches(x: string, i: nat, mn: (nat, nat), tail: string)
    requires i <= |x| && TokenAt(x, i) == Some(mn)
    requires '\n' !in x
    requires tail == "" || tail == "\n"
    ensures Matching(x + tail, Cut(x, i, mn, tail))
    ensures var b := Cut(x, i, mn, tail); b.app == "" || !IsDigit(b.app[0])
  {
    TokenLayout(x, i);
    CutCore(x, i, mn, tail);
    CutGroups(x, i, mn, tail);
  }

  /** Whatever `Parse` returns is a matching assignment, and its second number is a maximal digit run. */
  lemma ParseSound(line: string)
    requires Parse(line).Some?
    ensures Matching(line, Parse(line).value)
    ensures var b := Parse(line).value; b.app == "" || !IsDigit(b.app[0])
  {
    var x := Body(line);
    BodyAndTail(line);
    var i := LastToken(x, |x|).value;
    CutMatches(x, i, TokenAt(x, i).value, Tail(line));
  }

  /**
   * Whenever the pattern can match, `Parse` finds a match, and it is the one
   * a greedy engine picks: its `pre` is at least as long as any other
   * assignment's, and with an equally long `pre` so is its second number.
   */
  lemma ParseComplete(line: string, b: Banner)
    requires Matching(line, b)
    ensures Parse(line).Some?
    ensures |b.pre| <= |Parse(line).value.pre|
    ensures |b.pre| == |Parse(line).value.pre| ==> |b.minor| <= |Parse(line).value.minor|
  {
    MatchingLayout(line, b);
    var x := Body(line);
    var p := |b.pre|;
    assert p <= |x| && TokenAt(x, p).Some?;
    var r := LastToken(x, |x|);
    assert r.Some? && p <= r.value;
    ParseAtLastToken(line);
  }

  /** When the text before the line end holds no newline, `Parse` cuts it at the last token. */
  lemma ParseAtLastToken(line: string)
    requires '\n' !in Body(line) && LastToken(Body(line), |Body(line)|).Some?
    ensures Parse(line).Some?
    ensures var x := Body(line);
      var i := LastToken(x, |x|).value;
      && |Parse(line).value.pre| == i
      && |Parse(line).value.minor| == TokenAt(x, i).value.1
  {
  }

  /** Two cuts of the same text with groups of the same lengths are the same cut. */
  lemma CoreDetermined(b: Banner, c: Banner)
    requires Core(b) == Core(c)
    requires |b.pre| == |c.pre| && |b.major| == |c.major| && |b.minor| == |c.minor|
    ensures b.pre == c.pre && b.major == c.major && b.minor == c.minor && b.app == c.app
  {
    CoreLayout(b);
    CoreLayout(c);
  }

  /** An assignment is fixed by the lengths of `pre` and of the second number. */
  lemma MatchingUnique(line: string, b: Banner, c: Banner)
    requires Matching(line, b) && Matching(line, c)
    requires |b.pre| == |c.pre| && |b.minor| == |c.minor|
    ensures b == c
  {
    MatchingSplit(line, b);
    MatchingSplit(line, c);
    MatchingToken(b);
    MatchingToken(c);
    CoreDetermined(b, c);
  }

  /**
   * The match the server's match reports: present exactly when some
   * assignment matches, and then the greedy one.
   */
  lemma ParseChooses(line: string)
    ensures Parse(line).Some? ==> Chosen(line, Parse(line).value)
    ensures Parse(line).None? <==> forall b :: !Matching(line, b)
  {
    if Parse(line).Some? {
      var p := Parse(line).value;
      ParseSound(line);
      forall c | Matching(line, c)
        ensures |c.pre| < |p.pre| || (|c.pre| == |p.pre| && |c.minor| <= |p.minor|)
      {
        ParseComplete(line, c);
      }
    } else {
      forall b | Matching(line, b)
        ensures false
      {
        ParseComplete(line, b);
      }
    }
  }

  /**
   * A line the pattern matches leaves the rewrite as
   * `<pre>Stockfish Remote<app>` followed by its final newline, if any,
   * where `pre` and `app` are the groups of the greedy match.
   */
  lemma RewriteMasksChosen(line: string, b: Banner)
    requires Chosen(line, b)
    ensures Rewrite(line) == b.pre + "Stockfish Remote" + b.app + b.tail
  {
    ParseComplete(line, b);
    ParseSound(line);
    var p := Parse(line).value;
    assert Matching(line, p);
    assert |p.pre| <= |b.pre|;
    MatchingUnique(line, b, p);
    MaskedSpelledOut(b);
  }

  lemma MaskedSpelledOut(b: Banner)
    ensures Masked(b) == b.pre + "Stockfish Remote" + b.app + b.tail
  {
    assert Lead + Marker == "Stockfish Remote";
    assert Masked(b) == b.pre + (Lead + Marker) + b.app + b.tail;
  }

  /** A line is sent unchanged exactly when the pattern does not match it. */
  lemma RewriteUnchanged(line: string)
    ensures Rewrite(line) == line <==> forall b :: !Matching(line, b)
  {
    ParseChooses(line);
    if Parse(line).Some? {
      var b := Parse(line).value;
      ParseSound(line);
      var k := |b.pre| + |Lead|;
      assert Masked(b)[k] == 'R';
      assert Text(b)[k] == b.major[0];
      assert IsDigit(b.major[0]);
    }
  }

  /**
   * A final newline survives the rewrite: for a line without a newline,
   * rewriting it with a newline appended is rewriting it and appending one.
   */
  lemma RewriteKeepsNewline(x: string)
    requires '\n' !in x
    ensures Rewrite(x + "\n") == Rewrite(x) + "\n"
  {
    var line := x + "\n";
    assert Body(line) == x && Tail(line) == "\n";
    if |x| > 0 {
      assert x[|x| - 1] in x;
    }
    assert Body(x) == x && Tail(x) == "";
    if Parse(x).Some? {
      var b := Parse(x).value;
      assert Parse(line) == Some(b.(tail := "\n"));
    }
  }

  /** Whether a line ends in a newline is the same before and after the rewrite. */
  lemma RewriteKeepsLineEnd(line: string)
    ensures var r := Rewrite(line);
      (|line| > 0 && line[|line| - 1] == '\n') <==> (|r| > 0 && r[|r| - 1] == '\n')
  {
    if Parse(line).Some? {
      var b := Parse(line).value;
      ParseSound(line);
      var r := Masked(b);
      if b.tail == "" {
        assert r == b.pre + Lead + Marker + b.app;
        if b.app == [] {
          assert r[|r| - 1] == 'e';
        } else {
          assert r[|r| - 1] == b.app[|b.app| - 1];
          assert b.app[|b.app| - 1] in b.app;
        }
      }
    }
  }

  /** Under a matching assignment the line has an 'S' right where `pre` ends. */
  lemma LeadAtPre(line: string, b: Banner)
    requires Matching(line, b)
    ensures |b.pre| + |Lead| <= |line| && line[|b.pre|] == 'S'
  {
    CoreLayout(b);
    assert line[|b.pre|] == Core(b)[|b.pre|] == Core(b)[|b.pre|..|b.pre| + |Lead|][0];
  }

  /**
   * A matching assignment whose `pre` ends at the last 'S' of the line, and
   * whose second number is followed by a non-digit, is the greedy one.
   */
  lemma ChosenWhenRightmost(line: string, b: Banner)
    requires Matching(line, b)
    requires b.app == "" || !IsDigit(b.app[0])
    requires forall j :: |b.pre| < j < |line| ==> line[j] != 'S'
    ensures Chosen(line, b)
  {
    forall c | Matching(line, c)
      ensures |c.pre| < |b.pre| || (|c.pre| == |b.pre| && |c.minor| <= |b.minor|)
    {
      LeadAtPre(line, c);
      if |c.pre| == |b.pre| {
        MatchingSplit(line, b);
        MatchingSplit(line, c);
        MatchingToken(b);
        MatchingToken(c);
      }
    }
  }

  lemma NoLeadBeyond(s: string, k: nat)
    requires k < |s| && 'S' !in s[k + 1..]
    ensures forall j :: k < j < |s| ==> s[j] != 'S'
  {
    forall j | k < j < |s|
      ensures s[j] != 'S'
    {
      assert s[j] == s[k + 1..][j - k - 1];
    }
  }

  /**
   * A matching assignment whose `pre` ends at the last 'S' of the line and
   * whose second number is followed by a non-digit is the one masked.
   */
  lemma RewriteRightmost(line: string, b: Banner)
    requires Matching(line, b)
    requires b.app == "" || !IsDigit(b.app[0])
    requires forall j :: |b.pre| < j < |line| ==> line[j] != 'S'
    ensures Rewrite(line) == b.pre + "Stockfish Remote" + b.app + b.tail
  {
    ChosenWhenRightmost(line, b);
    RewriteMasksChosen(line, b);
  }

  /** A protocol line without the banner passes through untouched. */
  lemma UciokUnchanged()
    ensures Rewrite("uciok\n") == "uciok\n"
  {
    var line := "uciok\n";
    forall c | Matching(line, c)
      ensures false
    {
      LeadAtPre(line, c);
    }
    RewriteUnchanged(line);
  }

  /** The form the examples below use: `pre` ends at the last 'S' of the line. */
  lemma RewriteLastLead(line: string, b: Banner)
    requires Matching(line, b) && |b.pre| < |line| && 'S' !in line[|b.pre| + 1..]
    requires b.app == "" || !IsDigit(b.app[0])
    ensures Rewrite(line) == b.pre + "Stockfish Remote" + b.app + b.tail
  {
    NoLeadBeyond(line, |b.pre|);
    RewriteRightmost(line, b);
  }

  /** The engine's identity banner, cut along the pattern. */
  lemma BannerLineMatches()
    ensures Matching("id name Stockfish 15.1 64-bit\n", Banner("id name ", "15", "1", " 64-bit", "\n"))
  {
    BannerLineText();
    BannerLineGroups(Banner("id name ", "15", "1", " 64-bit", "\n"));
  }

  /** The cut reassembles the line. */
  lemma BannerLineText()
    ensures Text(Banner("id name ", "15", "1", " 64-bit", "\n")) == "id name Stockfish 15.1 64-bit\n"
  {
  }

  /** The cut satisfies the pattern's group constraints. */
  lemma BannerLineGroups(b: Banner)
    requires b == Banner("id name ", "15", "1", " 64-bit", "\n")
    ensures Matching(Text(b), b)
  {
    BannerLineText();
    assert IsDigits(b.major) && IsDigits(b.minor);
  }

  /** The masked banner spelled out. */
  lemma BannerLineSpelled()
    ensures var b := Banner("id name ", "15", "1", " 64-bit", "\n");
      b.pre + "Stockfish Remote" + b.app + b.tail == "id name Stockfish Remote 64-bit\n"
  {
  }

  /** No 'S' follows the token's own. */
  lemma BannerLineLastS()
    ensures 'S' !in "id name Stockfish 15.1 64-bit\n"[9..]
  {
  }

  /** The engine's identity banner loses its version number and keeps its newline. */
  lemma BannerLineMasked()
    ensures Rewrite("id name Stockfish 15.1 64-bit\n") == "id name Stockfish Remote 64-bit\n"
  {
    BannerLineMatches();
    BannerLineSpelled();
    BannerLineLastS();
    RewriteLastLead("id name Stockfish 15.1 64-bit\n", Banner("id name ", "15", "1", " 64-bit", "\n"));
  }

  /** A line with two version tokens, cut with the last one as the token. */
  lemma TwoTokensMatch()
    ensures Matching("Stockfish 1.2 Stockfish 3.4\n", Banner("Stockfish 1.2 ", "3", "4", "", "\n"))
  {
    TwoTokensText();
    TwoTokensGroups(Banner("Stockfish 1.2 ", "3", "4", "", "\n"));
  }

  /** The cut reassembles the line. */
  lemma TwoTokensText()
    ensures Text(Banner("Stockfish 1.2 ", "3", "4", "", "\n")) == "Stockfish 1.2 Stockfish 3.4\n"
  {
  }

  /** The cut satisfies the pattern's group constraints. */
  lemma TwoTokensGroups(b: Banner)
    requires b == Banner("Stockfish 1.2 ", "3", "4", "", "\n")
    ensures Matching(Text(b), b)
  {
    TwoTokensText();
    assert IsDigits(b.major) && IsDigits(b.minor);
  }

  /** The masked two-token line spelled out. */
  lemma TwoTokensSpelled()
    ensures var b := Banner("Stockfish 1.2 ", "3", "4", "", "\n");
      b.pre + "Stockfish Remote" + b.app + b.tail == "Stockfish 1.2 Stockfish Remote\n"
  {
  }

  /** No 'S' follows the token's own. */
  lemma TwoTokensLastS()
    ensures 'S' !in "Stockfish 1.2 Stockfish 3.4\n"[15..]
  {
  }

  /** With two version tokens on a line only the last is masked. */
  lemma OnlyLastTokenMasked()
    ensures Rewrite("Stockfish 1.2 Stockfish 3.4\n") == "Stockfish 1.2 Stockfish Remote\n"
  {
    TwoTokensMatch();
    TwoTokensSpelled();
    TwoTokensLastS();
    RewriteLastLead("Stockfish 1.2 Stockfish 3.4\n", Banner("Stockfish 1.2 ", "3", "4", "", "\n"));
  }

  /** The masked two-token line still matches, at its first token. */
  lemma MaskedLineMatches()
    ensures Matching("Stockfish 1.2 Stockfish Remote\n", Banner("", "1", "2", " Stockfish Remote", "\n"))
  {
    MaskedLineText();
    MaskedLineGroups(Banner("", "1", "2", " Stockfish Remote", "\n"));
  }

  /** The masked two-token line, cut at its first token, reassembles. */
  lemma MaskedLineText()
    ensures Text(Banner("", "1", "2", " Stockfish Remote", "\n")) == "Stockfish 1.2 Stockfish Remote\n"
  {
  }

  /** That cut satisfies the pattern's group constraints. */
  lemma MaskedLineGroups(b: Banner)
    requires b == Banner("", "1", "2", " Stockfish Remote", "\n")
    ensures Matching(Text(b), b)
  {
    assert IsDigits(b.major) && IsDigits(b.minor);
  }

  /** So rewriting is not idempotent: a second pass would mask the first token too. */
  lemma RewriteNotIdempotent()
    ensures Rewrite("Stockfish 1.2 Stockfish Remote\n") != "Stockfish 1.2 Stockfish Remote\n"
  {
    MaskedLineMatches();
    RewriteUnchanged("Stockfish 1.2 Stockfish Remote\n");
  }
}
