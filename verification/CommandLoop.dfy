/**
 When a proposed command repeats an earlier one: the overlap test on normal forms, and the commands an
 observation remembers. Lengths the program takes in octets are taken in octets here.
 */
module CommandLoop {
  import opened Basics
  import opened CommandForms
  import opened CommandText

  // ---- Overlap ---------------------------------------------------------------------------------

  predicate Contains(text: string, part: string) {
    exists i :: 0 <= i <= |text| - |part| && Starts(text[i..], part)
  }

  predicate IsTokenBreak(c: char) {
    !('0' <= c <= '9') && !('A' <= c <= 'Z') && !('a' <= c <= 'z') && c != '-' && c != '_' && c != '.'
  }

  const FILLERS := {"echo", "head", "tail", "pager", "none", "true", "false", "null", "and", "the", "for", "with"}

  function Significant(words: seq<string>): (kept: seq<string>) {
    if words == [] then []
    else if |words[0]| >= 3 && words[0] !in FILLERS then [words[0]] + Significant(words[1..])
    else Significant(words[1..])
  }

  function SignificantTokens(command: string): (tokens: seq<string>) {
    Significant(Split(command, IsTokenBreak))
  }

  /** How many tokens on the left, repeats included, occur on the right. */
  function Hits(left: seq<string>, right: seq<string>): (n: nat)
    ensures n <= |left|
  {
    if left == [] then 0
    else Hits(left[..|left| - 1], right) + if left[|left| - 1] in right then 1 else 0
  }

  /** The similarity of two token lists; short ones have none. */
  function Similarity(left: seq<string>, right: seq<string>): (r: real)
    ensures r >= 0.0
  {
    if |left| < 3 || |right| < 3 then 0.0
    else Hits(left, right) as real / (|left| + |right| - Hits(left, right)) as real
  }

  method TokenJaccard(left: string, right: string) returns (r: real)
    ensures r == Similarity(SignificantTokens(left), SignificantTokens(right))
  {
    var leftTokens, rightTokens := SignificantTokens(left), SignificantTokens(right);
    if |leftTokens| < 3 || |rightTokens| < 3 {
      return 0.0;
    }
    var intersection := 0;
    for i := 0 to |leftTokens|
      invariant intersection == Hits(leftTokens[..i], rightTokens)
    {
      assert leftTokens[..i + 1][..i] == leftTokens[..i];
      if leftTokens[i] in rightTokens {
        intersection := intersection + 1;
      }
    }
    assert leftTokens[..|leftTokens|] == leftTokens;
    var union := |leftTokens| + |rightTokens| - intersection;
    r := if union == 0 then 0.0 else intersection as real / union as real;
  }

  function CommonTokens(left: seq<string>, right: seq<string>): set<string> {
    Elements(left) * Elements(right)
  }

  lemma CommonGrows(front: seq<string>, x: string, right: seq<string>)
    requires x !in front
    ensures |CommonTokens(front + [x], right)| == |CommonTokens(front, right)| + if x in right then 1 else 0
  {
    assert Elements(front + [x]) == Elements(front) + {x};
    if x in right {
      assert CommonTokens(front + [x], right) == CommonTokens(front, right) + {x};
    } else {
      assert CommonTokens(front + [x], right) == CommonTokens(front, right);
    }
  }

  lemma {:induction false} HitsOnDistinct(left: seq<string>, right: seq<string>)
    requires Distinct(left)
    ensures Hits(left, right) == |CommonTokens(left, right)|
  {
    if left == [] {
      assert CommonTokens(left, right) == {};
    } else {
      var front, x := left[..|left| - 1], left[|left| - 1];
      HitsOnDistinct(front, right);
      CommonGrows(front, x, right);
      assert left == front + [x];
    }
  }

  /** On lists without repeats it is the Jaccard index: common tokens over all tokens. */
  lemma SimilarityIsJaccard(left: seq<string>, right: seq<string>)
    requires Distinct(left) && Distinct(right) && |left| >= 3 && |right| >= 3
    ensures Elements(left) + Elements(right) != {}
    ensures Similarity(left, right)
      == |Elements(left) * Elements(right)| as real / |Elements(left) + Elements(right)| as real
    ensures Similarity(left, right) <= 1.0
  {
    var a, b := Elements(left), Elements(right);
    HitsOnDistinct(left, right);
    DistinctCardinality(left);
    DistinctCardinality(right);
    assert left[0] in a;
    assert |a + b| == |a| + |b| - |a * b|;
    assert a * b <= a + b;
    SubsetCardinality(a * b, a + b);
    Quotient(|a * b|, |a + b|);
  }

  lemma Quotient(n: nat, m: nat)
    requires n <= m && m > 0
    ensures n as real / m as real <= 1.0
  {
  }

  /** The positions on the left that hold a token of the right. */
  function FoundIn(left: seq<string>, right: seq<string>): (positions: set<nat>) {
    set i: nat | i < |left| && left[i] in right
  }

  lemma {:induction false} HitsArePositions(left: seq<string>, right: seq<string>)
    ensures Hits(left, right) == |FoundIn(left, right)|
  {
    if left == [] {
      assert FoundIn(left, right) == {};
    } else {
      var n := |left| - 1;
      HitsArePositions(left[..n], right);
      if left[n] in right {
        assert FoundIn(left, right) == FoundIn(left[..n], right) + {n};
      } else {
        assert FoundIn(left, right) == FoundIn(left[..n], right);
      }
    }
  }

  /** It exceeds one exactly when more than half of all positions of both lists are left ones found on the right. */
  lemma SimilarityExceedsOneIff(left: seq<string>, right: seq<string>)
    ensures Similarity(left, right) > 1.0 <==>
      |left| >= 3 && |right| >= 3 && 2 * |FoundIn(left, right)| > |left| + |right|
  {
    HitsArePositions(left, right);
    if |left| >= 3 && |right| >= 3 {
      AtLeastIff(Hits(left, right), |left| + |right| - Hits(left, right));
    }
  }

  lemma RatioIff(x: real, y: real, bound: real)
    requires y > 0.0
    ensures x / y >= bound <==> x >= bound * y
    ensures x / y > bound <==> x > bound * y
  {
    var q := x / y;
    assert q * y == x;
    if q >= bound {
      assert (q - bound) * y >= 0.0;
    } else {
      assert (bound - q) * y > 0.0;
    }
    if q > bound {
      assert (q - bound) * y > 0.0;
    }
  }

  lemma AtLeastIff(x: nat, y: nat)
    requires y > 0
    ensures x as real / y as real > 1.0 <==> x > y
    ensures x as real / y as real >= 0.82 <==> 50 * x >= 41 * y
    ensures x as real / y as real >= 0.88 <==> 25 * x >= 22 * y
  {
    RatioIff(x as real, y as real, 1.0);
    RatioIff(x as real, y as real, 0.82);
    RatioIff(x as real, y as real, 0.88);
    Hundredths(x, y);
  }

  /**
   Rounding cannot change the answer. A quotient rounded monotonically and to within 2^-24, compared with a
   bound rounded as closely, decides as the exact comparison does while the denominators are below 2^23.
   */
  lemma RoundingHarmless(x: nat, y: nat, num: nat, den: nat, quotient: real, bound: real)
    requires y > 0 && den > 0 && y * den < 0x80_0000
    requires bound >= num as real / den as real - 1.0 / 16777216.0
    requires x as real / y as real >= num as real / den as real ==> quotient >= bound
    requires x as real / y as real < num as real / den as real ==>
      quotient <= x as real / y as real + 1.0 / 16777216.0
    ensures quotient >= bound <==> x as real / y as real >= num as real / den as real
  {
    if x as real / y as real < num as real / den as real {
      QuotientGap(x, y, num, den);
      Reciprocal((y * den) as real);
    }
  }

  lemma Reciprocal(n: real)
    requires 0.0 < n < 8388608.0
    ensures 1.0 / n > 1.0 / 8388608.0
  {
    RatioIff(1.0, n, 1.0 / 8388608.0);
  }

  /** Different fractions lie apart by at least one over the product of their denominators. */
  lemma QuotientGap(x: nat, y: nat, num: nat, den: nat)
    requires y > 0 && den > 0 && x as real / y as real < num as real / den as real
    ensures x as real / y as real + 1.0 / (y * den) as real <= num as real / den as real
  {
    var a, b, m := x as real / y as real, num as real / den as real, (y * den) as real;
    assert m == y as real * den as real > 0.0;
    assert a * y as real == x as real && b * den as real == num as real;
    assert a * m == (x * den) as real by { Product(a, y as real, den as real, x, den); }
    assert b * m == (num * y) as real by { Product(b, den as real, y as real, num, y); }
    assert a * m < b * m;
    assert x * den + 1 <= num * y;
    assert (b - a) * m >= 1.0;
    RatioIff(1.0, m, b - a);
  }

  lemma Product(q: real, p: real, r: real, x: nat, k: nat)
    requires q * p == x as real && r == k as real
    ensures q * (p * r) == (x * k) as real
  {
    assert q * (p * r) == (q * p) * r;
    assert (x * k) as real == x as real * k as real;
  }

  lemma Hundredths(x: nat, y: nat)
    ensures x as real >= 0.82 * y as real <==> 50 * x >= 41 * y
    ensures x as real >= 0.88 * y as real <==> 25 * x >= 22 * y
  {
    assert (50 * x) as real == 50.0 * x as real && (41 * y) as real == 41.0 * y as real;
    assert (25 * x) as real == 25.0 * x as real && (22 * y) as real == 22.0 * y as real;
  }

  /** Its order does not matter exactly when as many positions are found one way as the other. */
  lemma SimilaritySymmetricIff(left: seq<string>, right: seq<string>)
    ensures Similarity(left, right) == Similarity(right, left) <==>
      |left| < 3 || |right| < 3 || |FoundIn(left, right)| == |FoundIn(right, left)|
  {
    HitsArePositions(left, right);
    HitsArePositions(right, left);
    var n := |left| + |right|;
    var x, y := Hits(left, right), Hits(right, left);
    if |left| >= 3 && |right| >= 3 {
      if x < y {
        QuotientRises(n, x, y);
      } else if y < x {
        QuotientRises(n, y, x);
      }
    }
  }

  lemma QuotientRises(n: nat, x: nat, y: nat)
    requires x < y < n
    ensures x as real / (n - x) as real < y as real / (n - y) as real
  {
    var a, b, c, d := x as real, (n - x) as real, y as real, (n - y) as real;
    assert a / b < c / b by { assert (c - a) / b > 0.0; assert c / b - a / b == (c - a) / b; }
    assert c / b <= c / d;
  }

  /** Normal forms that are equal, nearly one inside the other, or made of the same tokens. */
  predicate Overlapping(left: string, right: string) {
    if left == right then true
    else
      var (shorter, longer) := if Octets(left) <= Octets(right) then (left, right) else (right, left);
      (shorter != "" && Contains(longer, shorter) && Octets(shorter) as real / Octets(longer) as real >= 0.88)
      || Similarity(SignificantTokens(left), SignificantTokens(right)) >= 0.82
  }

  lemma {:induction false} OctetsAppend(a: string, b: string)
    ensures Octets(a + b) == Octets(a) + Octets(b)
  {
    if a == "" {
      assert a + b == b;
    } else {
      assert (a + b)[1..] == a[1..] + b;
      OctetsAppend(a[1..], b);
    }
  }

  lemma ContainedOfSameLength(text: string, part: string)
    requires Contains(text, part) && Octets(text) == Octets(part)
    ensures text == part
  {
    var i :| 0 <= i <= |text| - |part| && Starts(text[i..], part);
    var lead, tail := text[..i], text[i + |part|..];
    assert text == lead + (part + tail);
    OctetsAppend(lead, part + tail);
    OctetsAppend(part, tail);
  }

  /** One text lies in the other and makes up at least 88 parts of a hundred of it. */
  predicate Near(left: string, right: string) {
    var (shorter, longer) := if Octets(left) <= Octets(right) then (left, right) else (right, left);
    shorter != "" && Contains(longer, shorter) && 25 * Octets(shorter) >= 22 * Octets(longer)
  }

  /** Found positions make up at least 41 parts of 91 of all positions. */
  predicate AlikeTokens(left: seq<string>, right: seq<string>) {
    |left| >= 3 && |right| >= 3 && 91 * |FoundIn(left, right)| >= 41 * (|left| + |right|)
  }

  lemma AlikeIff(left: seq<string>, right: seq<string>)
    ensures Similarity(left, right) >= 0.82 <==> AlikeTokens(left, right)
  {
    HitsArePositions(left, right);
    if |left| >= 3 && |right| >= 3 {
      AtLeastIff(Hits(left, right), |left| + |right| - Hits(left, right));
    }
  }

  lemma OverlappingIff(left: string, right: string)
    ensures Overlapping(left, right) <==>
      left == right || Near(left, right) || AlikeTokens(SignificantTokens(left), SignificantTokens(right))
  {
    AlikeIff(SignificantTokens(left), SignificantTokens(right));
    var (shorter, longer) := if Octets(left) <= Octets(right) then (left, right) else (right, left);
    if shorter != "" {
      AtLeastIff(Octets(shorter), Octets(longer));
    }
  }

  lemma NearSymmetric(left: string, right: string)
    requires left != right
    ensures Near(left, right) == Near(right, left)
  {
    if Octets(left) == Octets(right) {
      if Contains(left, right) {
        ContainedOfSameLength(left, right);
      }
      if Contains(right, left) {
        ContainedOfSameLength(right, left);
      }
    }
  }

  /** The order of two normal forms matters exactly when they are neither equal nor near and one way only alike. */
  lemma OverlapSymmetricIff(left: string, right: string)
    ensures Overlapping(left, right) == Overlapping(right, left) <==>
      left == right || Near(left, right)
      || AlikeTokens(SignificantTokens(left), SignificantTokens(right))
         == AlikeTokens(SignificantTokens(right), SignificantTokens(left))
  {
    hide Overlapping, Near, AlikeTokens;
    OverlappingIff(left, right);
    OverlappingIff(right, left);
    if left != right {
      NearSymmetric(left, right);
    }
  }

  /** In particular it does not matter when no token repeats. */
  lemma OverlapSymmetric(left: string, right: string)
    requires Distinct(SignificantTokens(left)) && Distinct(SignificantTokens(right))
    ensures Overlapping(left, right) == Overlapping(right, left)
  {
    hide Overlapping;
    var a, b := SignificantTokens(left), SignificantTokens(right);
    HitsOnDistinct(a, b);
    HitsOnDistinct(b, a);
    assert CommonTokens(a, b) == CommonTokens(b, a);
    HitsArePositions(a, b);
    HitsArePositions(b, a);
    OverlapSymmetricIff(left, right);
  }

  // ---- Redundancy ------------------------------------------------------------------------------

  predicate Redundant(candidate: string, prior: string) {
    Normal(candidate) != "" && Normal(prior) != "" && Overlapping(Normal(candidate), Normal(prior))
  }

  method IsRedundantCommand(candidate: string, priors: seq<string>) returns (redundant: bool)
    ensures redundant <==> exists i :: 0 <= i < |priors| && Redundant(candidate, priors[i])
  {
    hide Normal, Overlapping;
    var normalized := NormalizeCommand(candidate);
    if normalized == "" {
      return false;
    }
    for i := 0 to |priors|
      invariant forall j :: 0 <= j < i ==> !Redundant(candidate, priors[j])
    {
      var other := NormalizeCommand(priors[i]);
      if other != "" && Overlapping(normalized, other) {
        return true;
      }
    }
    return false;
  }

  /** Two commands of one normal form, unless it is empty, repeat each other. */
  lemma SameFormIsRedundant(a: string, b: string)
    requires Normal(a) == Normal(b)
    ensures Redundant(a, b) <==> Normal(a) != ""
  {
  }

  // ---- Two commands whose order matters --------------------------------------------------------

  lemma {:induction false} AllSignificant(words: seq<string>)
    requires forall i :: 0 <= i < |words| ==> |words[i]| >= 3 && words[i] !in FILLERS
    ensures Significant(words) == words
  {
    if words != [] {
      AllSignificant(words[1..]);
    }
  }

  lemma PlainTokens(words: seq<string>)
    requires forall i :: 0 <= i < |words| ==>
      IsPiece(words[i], IsTokenBreak) && |words[i]| >= 3 && words[i] !in FILLERS
    ensures SignificantTokens(Join(words)) == words
  {
    SplitOfJoin(words, IsTokenBreak);
    AllSignificant(words);
  }

  lemma {:induction false} AsciiOctets(text: string)
    requires forall i :: 0 <= i < |text| ==> text[i] < '\U{80}'
    ensures Octets(text) == |text|
  {
    if text != "" {
      AsciiOctets(text[1..]);
    }
  }

  const FOUR_LOGS := ["log", "log", "log", "log"]
  const ONE_LOG := ["log", "disk", "boot"]

  lemma JoinThree(a: string, b: string, c: string)
    ensures Join([a, b, c]) == a + " " + (b + " " + c)
  {
    assert Join([b, c]) == b + " " + c by { assert [b, c][1..] == [c]; }
    assert [a, b, c][1..] == [b, c];
    assert a + " " + (b + " " + c) == (a + " ") + (b + " " + c);
  }

  lemma JoinedLogs()
    ensures Join(FOUR_LOGS) == "log log log log" && Join(ONE_LOG) == "log disk boot"
  {
    hide Join;
    JoinThree("log", "disk", "boot");
    JoinThree("log", "log", "log");
    JoinFirst("log", ["log", "log", "log"]);
    assert ["log"] + ["log", "log", "log"] == FOUR_LOGS;
  }

  lemma LogsAreNormal()
    ensures Normal("log log log log") == "log log log log" && Normal("log disk boot") == "log disk boot"
    ensures SignificantTokens("log log log log") == FOUR_LOGS && SignificantTokens("log disk boot") == ONE_LOG
  {
    hide Normal, Join, Significant, Split;
    JoinedLogs();
    PlainTokens(FOUR_LOGS);
    PlainTokens(ONE_LOG);
    PlainIsNormal(FOUR_LOGS);
    PlainIsNormal(ONE_LOG);
  }

  lemma LogsFound()
    ensures |FoundIn(FOUR_LOGS, ONE_LOG)| == 4 && |FoundIn(ONE_LOG, FOUR_LOGS)| == 1
    ensures AlikeTokens(FOUR_LOGS, ONE_LOG) && !AlikeTokens(ONE_LOG, FOUR_LOGS)
  {
    assert FoundIn(FOUR_LOGS, ONE_LOG) == {0, 1, 2, 3} by {
      assert FOUR_LOGS[0] == FOUR_LOGS[1] == FOUR_LOGS[2] == FOUR_LOGS[3] == ONE_LOG[0];
    }
    assert FoundIn(ONE_LOG, FOUR_LOGS) == {0} by {
      assert ONE_LOG[0] == FOUR_LOGS[0] && |ONE_LOG[1]| != |FOUR_LOGS[0]| && |ONE_LOG[2]| != |FOUR_LOGS[0]|;
    }
  }

  lemma FarApart(a: string, b: string)
    requires forall i :: 0 <= i < |a| ==> a[i] < '\U{80}'
    requires forall i :: 0 <= i < |b| ==> b[i] < '\U{80}'
    requires 25 * |a| < 22 * |b|
    ensures !Near(a, b) && a != b
  {
    hide Contains, Octets;
    AsciiOctets(a);
    AsciiOctets(b);
  }

  /** `log log log log` repeats `log disk boot`, but not the other way round. */
  lemma OrderMatters()
    ensures Redundant("log log log log", "log disk boot") && !Redundant("log disk boot", "log log log log")
    ensures Similarity(SignificantTokens("log log log log"), SignificantTokens("log disk boot")) > 1.0
  {
    hide Normal, SignificantTokens, Overlapping, Similarity, Near, AlikeTokens, FoundIn, Octets;
    LogsAreNormal();
    LogsFound();
    FarApart("log disk boot", "log log log log");
    OverlappingIff("log log log log", "log disk boot");
    OverlappingIff("log disk boot", "log log log log");
    SimilarityExceedsOneIff(FOUR_LOGS, ONE_LOG);
  }

  // ---- What is remembered ----------------------------------------------------------------------

  predicate IsNewline(c: char) {
    c == '\n'
  }

  function LineCount(text: string): (n: nat)
    decreases |text|
  {
    if text == "" then 0
    else
      var n := PieceEnd(text, IsNewline);
      if n < |text| then 1 + LineCount(text[n + 1..]) else 1
  }

  const MAX_COMMAND_BYTES := 16 * 1024

  /** The text a proposal is accepted with: one line without a secret. */
  function Prepared(proposal: string, secret: string -> bool): (command: Option<string>) {
    var text := Trim(proposal);
    if text == "" || Octets(text) > MAX_COMMAND_BYTES || '\0' in text || LineCount(text) != 1 || secret(text) then None
    else Some(text)
  }

  /** The first command line of an observation's detail. */
  function AttemptedCommand(detail: string): (command: Option<string>)
    decreases |detail|
  {
    if detail == "" then None
    else
      var n := PieceEnd(detail, IsNewline);
      var line := Trim(detail[..n]);
      var found := if Starts(line, "Command:") then Trim(line[8..]) else "";
      if found != "" then Some(found) else if n < |detail| then AttemptedCommand(detail[n + 1..]) else None
  }

  method CommandLineFromDetail(detail: string) returns (command: Option<string>)
    ensures command == AttemptedCommand(detail)
  {
    var rest := detail;
    while rest != ""
      invariant AttemptedCommand(rest) == AttemptedCommand(detail)
      decreases |rest|
    {
      var n := PieceEnd(rest, IsNewline);
      var line := Trim(rest[..n]);
      if Starts(line, "Command:") {
        var found := Trim(line[8..]);
        if found != "" {
          return Some(found);
        }
      }
      rest := if n < |rest| then rest[n + 1..] else "";
    }
    return None;
  }

  predicate IsTrimmed(text: string) {
    text != "" && !IsSpace(text[0]) && !IsSpace(text[|text| - 1])
  }

  lemma TrimmedIs(text: string)
    ensures IsTrimmed(text) ==> Trim(text) == text
    ensures Trim(text) != "" ==> IsTrimmed(Trim(text))
  {
    var late := DropWhile(text, IsSpace);
    var tail := DropEndSplits(late, IsSpace);
  }

  lemma OneLine(text: string)
    requires IsTrimmed(text) && LineCount(text) == 1
    ensures IsPiece(text, IsNewline)
  {
  }

  /** An attempted command is remembered word for word, whatever its detail goes on to say. */
  lemma RememberedVerbatim(proposal: string, secret: string -> bool, more: string)
    requires Prepared(proposal, secret).Some?
    ensures AttemptedCommand("Command: " + Prepared(proposal, secret).value + "\n" + more) == Prepared(proposal, secret)
  {
    var command := Prepared(proposal, secret).value;
    TrimmedIs(proposal);
    OneLine(command);
    var head, rest := "Command: " + command, "\n" + more;
    assert IsPiece(head, IsNewline);
    PieceEndIs(head, rest, IsNewline);
    assert "Command: " + command + "\n" + more == head + rest && (head + rest)[..|head|] == head;
    assert IsTrimmed(head) by { assert head[|head| - 1] == command[|command| - 1]; }
    TrimmedIs(head);
    assert head[..8] == "Command:" && head[8..] == " " + command && (" " + command)[1..] == command;
    TrimmedIs(command);
    assert Trim(" " + command) == command;
  }
}
