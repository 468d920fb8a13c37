/**
 The normal form of a command: banners, spacing, letter case and output cosmetics stripped, and what
 therefore makes no difference to it.
 */
module CommandForms {
  import opened CommandText

  // ---- Banners ---------------------------------------------------------------------------------

  predicate Starts(text: string, prefix: string) {
    prefix <= text
  }

  predicate IsSeparator(c: char) {
    c == ' ' || c == ';' || c == '\n' || c == '\t'
  }

  predicate IsStop(c: char) {
    c == ';' || c == '\n'
  }

  predicate IsQuote(c: char) {
    c == '\'' || c == '"'
  }

  /** Where a scan for the closing quote ends, an escaped character being passed over. */
  function ClosingFrom(value: string, quote: char, i: nat): (k: nat)
    requires i <= |value|
    ensures i <= k <= |value|
    decreases |value| - i
  {
    if i == |value| || value[i] == quote then i
    else if value[i] == '\\' && i + 1 < |value| then ClosingFrom(value, quote, i + 2)
    else ClosingFrom(value, quote, i + 1)
  }

  function AfterQuoted(value: string, quote: char): (rest: string)
    requires value != ""
    ensures |rest| < |value|
  {
    var k := ClosingFrom(value, quote, 1);
    if k < |value| then value[k + 1..] else ""
  }

  function BackslashesBefore(value: string, k: nat): (n: nat)
    requires k <= |value|
  {
    if k <= 1 || value[k - 1] != '\\' then 0 else 1 + BackslashesBefore(value, k - 1)
  }

  /** A quote after the opening one that an even number of backslashes precedes. */
  predicate Closes(value: string, quote: char, k: nat) {
    1 <= k < |value| && value[k] == quote && BackslashesBefore(value, k) % 2 == 0
  }

  /** The scan finds exactly the first quote that closes. */
  lemma {:induction false} ClosingIsFirst(value: string, quote: char, i: nat)
    requires IsQuote(quote) && 1 <= i <= |value| && BackslashesBefore(value, i) % 2 == 0
    ensures ClosingFrom(value, quote, i) < |value| ==> Closes(value, quote, ClosingFrom(value, quote, i))
    ensures forall j :: i <= j < ClosingFrom(value, quote, i) ==> !Closes(value, quote, j)
    decreases |value| - i
  {
    if i < |value| && value[i] != quote {
      if value[i] == '\\' && i + 1 < |value| {
        assert BackslashesBefore(value, i + 1) == 1 + BackslashesBefore(value, i);
        ClosingIsFirst(value, quote, i + 2);
      } else if value[i] != '\\' {
        ClosingIsFirst(value, quote, i + 1);
      } else {
        assert ClosingFrom(value, quote, i) == |value|;
      }
    }
  }

  /** Skips a quoted argument; what does not start with the quote is left alone. */
  method SkipQuoted(value: string, quote: char) returns (rest: string)
    ensures value == "" || value[0] != quote ==> rest == value
    ensures value != "" && value[0] == quote ==> rest == AfterQuoted(value, quote)
  {
    if value == "" || value[0] != quote {
      return value;
    }
    var index := 1;
    while index < |value|
      invariant 1 <= index <= |value|
      invariant ClosingFrom(value, quote, index) == ClosingFrom(value, quote, 1)
    {
      if value[index] == quote {
        return value[index + 1..];
      }
      if value[index] == '\\' && index + 1 < |value| {
        index := index + 2;
        continue;
      }
      index := index + 1;
    }
    return "";
  }

  /** What follows the argument of an echo: behind the closing quote, or behind the first stop. */
  function AfterArgument(text: string): (rest: string)
    ensures |rest| <= |text|
  {
    if text != "" && IsQuote(text[0]) then AfterQuoted(text, text[0])
    else
      var n := PieceEnd(text, IsStop);
      if n < |text| then text[n + 1..] else ""
  }

  /** A command without its leading echo, unless nothing is behind it. */
  function Unwrapped(text: string): (rest: string)
    ensures |rest| < |text| || rest == text
  {
    var trimmed := DropWhile(text, IsSpace);
    if !Starts(trimmed, "echo ") then trimmed
    else
      var rest := DropWhile(AfterArgument(trimmed[5..]), IsSeparator);
      if rest == "" then trimmed else rest
  }

  method StripLeadingEcho(command: string) returns (rest: string)
    ensures rest == Unwrapped(command)
  {
    var trimmed := DropWhile(command, IsSpace);
    if !Starts(trimmed, "echo ") {
      return trimmed;
    }
    var after := trimmed[5..];
    if after != "" && after[0] == '\'' {
      rest := SkipQuoted(after, '\'');
    } else if after != "" && after[0] == '"' {
      rest := SkipQuoted(after, '"');
    } else {
      var n := PieceEnd(after, IsStop);
      rest := if n < |after| then after[n + 1..] else "";
    }
    rest := DropWhile(rest, IsSeparator);
    if rest == "" {
      rest := trimmed;
    }
  }

  /** All leading echoes removed. */
  function Peeled(text: string): (rest: string)
    ensures Unwrapped(rest) == rest
    decreases |text|
  {
    var next := Unwrapped(text);
    if next == text then text else Peeled(next)
  }

  // ---- Output cosmetics ------------------------------------------------------------------------

  predicate IsDash(c: char) {
    c == '-'
  }

  predicate IsDigit(c: char) {
    '0' <= c <= '9'
  }

  predicate IsSwitch(word: string) {
    word == "--no-pager" || word == "-q" || word == "--quiet"
  }

  /** A word that is dropped on its own wherever the scan meets it. */
  predicate IsFlag(word: string) {
    IsSwitch(word) || Starts(word, "--output=")
  }

  predicate TakesFormat(word: string) {
    word == "-o" || word == "--output"
  }

  lemma FormatIsNoFlag(word: string)
    requires TakesFormat(word)
    ensures !IsFlag(word)
  {
  }

  predicate IsPager(word: string) {
    word == "head" || word == "tail"
  }

  predicate TakesCount(word: string) {
    word == "-n" || word == "-c"
  }

  /** A line count as a word of its own; a word of dashes alone passes for one. */
  predicate IsCount(word: string) {
    word != "" && AllOf(DropWhile(word, IsDash), IsDigit)
  }

  predicate PagerAt(words: seq<string>, i: nat) {
    i + 1 < |words| && words[i] == "|" && IsPager(words[i + 1])
  }

  /** Past a line count at `i`, if there is one. */
  function AfterCount(words: seq<string>, i: nat): (j: nat)
    requires i <= |words|
    ensures i <= j <= |words|
  {
    if i < |words| && TakesCount(words[i]) then if i + 2 <= |words| then i + 2 else |words|
    else if i < |words| && IsCount(words[i]) then i + 1
    else i
  }

  /** How many words the cosmetic at the start takes; none if there is none. */
  function CosmeticLength(words: seq<string>): (n: nat)
    ensures n <= |words|
  {
    if words == [] then 0
    else if IsFlag(words[0]) then 1
    else if TakesFormat(words[0]) then if |words| > 1 then 2 else 1
    else if PagerAt(words, 0) then AfterCount(words, 2)
    else 0
  }

  /** The words that remain. */
  function Clean(words: seq<string>): (kept: seq<string>) {
    if words == [] then []
    else
      var n := CosmeticLength(words);
      if n == 0 then [words[0]] + Clean(words[1..]) else Clean(words[n..])
  }

  /** What the scan does at one index. */
  lemma CleanAt(words: seq<string>, i: nat)
    requires i < |words|
    ensures i + CosmeticLength(words[i..]) <= |words|
    ensures Clean(words[i..]) == var n := CosmeticLength(words[i..]);
      if n == 0 then [words[i]] + Clean(words[i + 1..]) else Clean(words[i + n..])
  {
    var n := CosmeticLength(words[i..]);
    assert words[i..][if n == 0 then 1 else n..] == words[if n == 0 then i + 1 else i + n..];
  }

  lemma FlagAt(words: seq<string>, i: nat)
    requires i < |words| && IsFlag(words[i])
    ensures Clean(words[i..]) == Clean(words[i + 1..])
  {
    hide IsFlag, Clean;
    CleanAt(words, i);
  }

  lemma FormatAt(words: seq<string>, i: nat)
    requires i < |words| && TakesFormat(words[i])
    ensures Clean(words[i..]) == Clean(words[if i + 2 <= |words| then i + 2 else |words|..])
  {
    hide IsFlag, TakesFormat, Clean;
    FormatIsNoFlag(words[i]);
    CleanAt(words, i);
  }

  lemma PipeIsPlain()
    ensures !IsFlag("|") && !TakesFormat("|")
  {
  }

  lemma PipeAt(words: seq<string>, i: nat)
    requires PagerAt(words, i)
    ensures Clean(words[i..]) == Clean(words[AfterCount(words, i + 2)..])
  {
    hide IsFlag, TakesFormat, TakesCount, IsCount, IsPager, Clean;
    PipeIsPlain();
    CleanAt(words, i);
  }

  lemma PlainAt(words: seq<string>, i: nat)
    requires i < |words| && !IsFlag(words[i]) && !TakesFormat(words[i]) && !PagerAt(words, i)
    ensures Clean(words[i..]) == [words[i]] + Clean(words[i + 1..])
  {
    hide IsFlag, TakesFormat, IsPager, Clean;
    CleanAt(words, i);
  }

  method StripOutputCosmetics(command: string) returns (text: string)
    ensures text == Join(Clean(Words(command)))
  {
    hide Split, Join, Clean, IsSwitch, TakesFormat, IsPager, TakesCount, IsCount;
    var tokens := Words(command);
    var cleaned: seq<string> := [];
    var index := 0;
    while index < |tokens|
      invariant index <= |tokens|
      invariant cleaned + Clean(tokens[index..]) == Clean(tokens)
    {
      var token := tokens[index];
      if IsSwitch(token) {
        FlagAt(tokens, index);
        index := index + 1;
        continue;
      }
      if TakesFormat(token) {
        FormatAt(tokens, index);
        index := if index + 2 <= |tokens| then index + 2 else |tokens|;
        continue;
      }
      if Starts(token, "--output=") {
        FlagAt(tokens, index);
        index := index + 1;
        continue;
      }
      if token == "|" && index + 1 < |tokens| && IsPager(tokens[index + 1]) {
        PipeAt(tokens, index);
        index := index + 2;
        if index < |tokens| && TakesCount(tokens[index]) {
          index := if index + 2 <= |tokens| then index + 2 else |tokens|;
        } else if index < |tokens| && IsCount(tokens[index]) {
          index := index + 1;
        }
        continue;
      }
      PlainAt(tokens, index);
      cleaned := cleaned + [token];
      index := index + 1;
    }
    NothingKept();
    assert tokens[index..] == [] && cleaned + [] == cleaned;
    text := Join(cleaned);
  }

  lemma NothingKept()
    ensures Clean([]) == []
  {
  }

  // ---- The normal form -------------------------------------------------------------------------

  function Normal(command: string): (form: string) {
    Join(Clean(Words(Peeled(Collapse(Lower(command))))))
  }

  lemma {:induction false} CleanKeepsWords(words: seq<string>)
    ensures forall w :: w in Clean(words) ==> w in words && !IsFlag(w) && !TakesFormat(w)
  {
    if words != [] {
      var n := CosmeticLength(words);
      CleanKeepsWords(words[if n == 0 then 1 else n..]);
    }
  }

  lemma CleanedAreWords(words: seq<string>)
    requires AreWords(words)
    ensures AreWords(Clean(words))
  {
    CleanKeepsWords(words);
    forall i | 0 <= i < |Clean(words)| ensures IsPiece(Clean(words)[i], IsSpace) {
      assert Clean(words)[i] in words;
    }
  }

  /** The loop that peels one echo after the other ends, and everything together gives the normal form. */
  method NormalizeCommand(command: string) returns (form: string)
    ensures form == Normal(command)
  {
    var value := Lower(Trim(command));
    WordsOfTrimmed(command);
    value := Collapse(value);
    ghost var target := Peeled(value);
    while true
      invariant Peeled(value) == target
      decreases |value|
    {
      var trimmed := StripLeadingEcho(value);
      if trimmed == value {
        break;
      }
      value := trimmed;
    }
    ghost var words := Words(value);
    value := StripOutputCosmetics(value);
    SplitGivesPieces(target, IsSpace);
    CleanedAreWords(words);
    WordsOfJoin(Clean(words));
    form := Collapse(value);
  }

  /** A normal form is single-spaced and free of flags that only shape the output. */
  lemma NormalIsClean(command: string)
    ensures Collapse(Normal(command)) == Normal(command)
    ensures forall w :: w in Words(Normal(command)) ==> !IsFlag(w) && !TakesFormat(w)
  {
    var words := Words(Peeled(Collapse(Lower(command))));
    SplitGivesPieces(Peeled(Collapse(Lower(command))), IsSpace);
    CleanedAreWords(words);
    WordsOfJoin(Clean(words));
    CleanKeepsWords(words);
  }

  /** Spelling: neither letter case nor spacing changes the normal form. */
  lemma SpellingIgnored(a: string, b: string)
    requires Words(Lower(a)) == Words(Lower(b))
    ensures Normal(a) == Normal(b)
  {
  }

  // ---- Banners are ignored ---------------------------------------------------------------------

  /** What a quoted text may hold for its closing quote to be the next one. */
  predicate IsQuotable(c: char) {
    !IsQuote(c) && c != '\\'
  }

  /** Spacing out a text keeps a piece at its end, and brings in nothing but spaces before it. */
  lemma {:induction false} CollapseKeepsEnd(text: string, end: string) returns (spaced: string)
    requires AllOf(text, IsQuotable) && IsPiece(end, IsSpace)
    ensures Collapse(text + end) == spaced + end && AllOf(spaced, IsQuotable)
    decreases |text|
  {
    var n := PieceEnd(text, IsSpace);
    if n == |text| {
      spaced := text;
      assert text + end + "" == text + end;
      SplitFirst(text + end, "", IsSpace);
    } else if n == 0 {
      assert (text + end)[1..] == text[1..] + end;
      spaced := CollapseKeepsEnd(text[1..], end);
    } else {
      var word, rest := text[..n], text[n..] + end;
      assert text + end == word + rest;
      SplitFirst(word, rest, IsSpace);
      var more := CollapseKeepsEnd(text[n..], end);
      JoinAppend([word], Words(rest));
      spaced := word + " " + more;
      assert spaced + end == word + " " + (more + end);
    }
  }

  lemma StandsAlone(word: string, text: string)
    requires IsPiece(word, IsSpace) && text != "" && IsSpace(text[0]) && Words(text) != []
    ensures Collapse(word + text) == word + " " + Collapse(text)
  {
    hide Split;
    SplitFirst(word, text, IsSpace);
    JoinAppend([word], Words(text));
  }

  /** A character put before a text stays at the start of its first word, or is a word of its own. */
  lemma CollapseKeepsStart(c: char, text: string)
    requires !IsSpace(c) && Words(text) != []
    ensures Collapse([c] + text) == [c] + Collapse(text) || Collapse([c] + text) == [c] + " " + Collapse(text)
  {
    if text == "" {
    } else if IsSpace(text[0]) {
      StandsAlone([c], text);
    } else {
      FirstWordGrows(c, text[..PieceEnd(text, IsSpace)], text[PieceEnd(text, IsSpace)..]);
      assert text == text[..PieceEnd(text, IsSpace)] + text[PieceEnd(text, IsSpace)..];
    }
  }

  lemma JoinFirst(word: string, more: seq<string>)
    ensures Join([word] + more) == word + if more == [] then "" else " " + Join(more)
  {
    if more == [] {
      assert [word] + more == [word];
    } else {
      JoinAppend([word], more);
    }
  }

  lemma FirstWordGrows(c: char, word: string, rest: string)
    requires !IsSpace(c) && IsPiece(word, IsSpace) && (rest == "" || IsSpace(rest[0]))
    ensures Collapse([c] + (word + rest)) == [c] + Collapse(word + rest)
  {
    hide Split, Join;
    assert [c] + (word + rest) == ([c] + word) + rest;
    SplitFirst(word, rest, IsSpace);
    SplitFirst([c] + word, rest, IsSpace);
    JoinFirst(word, Words(rest));
    JoinFirst([c] + word, Words(rest));
  }

  lemma {:induction false} ClosingBehind(value: string, quote: char, i: nat, k: nat)
    requires i <= k < |value| && value[k] == quote
    requires forall j :: i <= j < k ==> value[j] != quote && value[j] != '\\'
    ensures ClosingFrom(value, quote, i) == k
    decreases k - i
  {
    if i < k {
      ClosingBehind(value, quote, i + 1, k);
    }
  }

  function Banner(text: string, quote: char): string {
    "echo " + [quote] + text + [quote] + ";"
  }

  lemma LowerAppend(a: string, b: string)
    ensures Lower(a + b) == Lower(a) + Lower(b)
  {
  }

  lemma QuotedSpelled(text: string, quote: char) returns (spaced: string)
    requires IsQuote(quote) && AllOf(text, IsQuotable)
    ensures Collapse([quote] + (text + ([quote] + ";"))) == [quote] + (spaced + ([quote] + ";"))
    ensures AllOf(spaced, IsQuotable)
  {
    hide Split, Join;
    var end := [quote] + ";";
    spaced := CollapseKeepsEnd(text, end);
    assert Words(text + end) != [] by { assert Join([]) == "" by { NothingJoins(); } }
    CollapseKeepsStart(quote, text + end);
    if Collapse([quote] + (text + end)) == [quote] + " " + (spaced + end) {
      assert [quote] + " " + (spaced + end) == [quote] + ((" " + spaced) + end);
      spaced := " " + spaced;
    }
  }

  lemma NothingJoins()
    ensures Join([]) == ""
  {
  }

  /** Lower-casing and spacing out a banner gives a banner. */
  lemma BannerSpelled(text: string, quote: char) returns (spaced: string)
    requires IsQuote(quote) && AllOf(text, IsQuotable)
    ensures Collapse(Lower(Banner(text, quote))) == Banner(spaced, quote) && AllOf(spaced, IsQuotable)
  {
    hide Split;
    var lower, end := Lower(text), [quote] + ";";
    var argument := [quote] + (lower + end);
    assert Lower(Banner(text, quote)) == "echo" + (" " + argument);
    SplitFirst("echo", " " + argument, IsSpace);
    assert Words(" " + argument) == Words(argument) by { SpaceAdds(argument); }
    spaced := QuotedSpelled(lower, quote);
    JoinAppend(["echo"], Words(argument));
    assert "echo" + " " + ([quote] + (spaced + end)) == Banner(spaced, quote);
  }

  lemma SpaceAdds(text: string)
    ensures Words(" " + text) == Words(text)
  {
    assert (" " + text)[1..] == text;
  }

  lemma BehindQuoted(text: string, quote: char, rest: string)
    requires IsQuote(quote) && AllOf(text, IsQuotable)
    ensures AfterArgument([quote] + text + [quote] + rest) == rest
  {
    var argument := [quote] + text + [quote] + rest;
    forall j | 1 <= j < |text| + 1 ensures argument[j] != quote && argument[j] != '\\' {
      assert argument[j] == text[j - 1];
    }
    assert argument[|text| + 1] == quote && argument[|text| + 2..] == rest;
    ClosingBehind(argument, quote, 1, |text| + 1);
  }

  lemma SeparatorsDrop(rest: string)
    requires rest != "" && !IsSeparator(rest[0])
    ensures DropWhile("; " + rest, IsSeparator) == rest
  {
    assert ("; " + rest)[1..] == " " + rest && (" " + rest)[1..] == rest;
    assert DropWhile(" " + rest, IsSeparator) == rest;
  }

  lemma BannerUnwraps(text: string, quote: char, rest: string)
    requires IsQuote(quote) && AllOf(text, IsQuotable)
    requires rest != "" && !IsSeparator(rest[0])
    ensures Unwrapped(Banner(text, quote) + " " + rest) == rest
  {
    var command := Banner(text, quote) + " " + rest;
    var argument := [quote] + text + [quote] + ("; " + rest);
    assert command == "echo " + argument;
    assert command[0] == 'e' && command[..5] == "echo " && command[5..] == argument;
    BehindQuoted(text, quote, "; " + rest);
    SeparatorsDrop(rest);
  }

  lemma {:induction false} CollapseStarts(text: string)
    ensures Collapse(text) != "" ==> !IsSpace(Collapse(text)[0])
    decreases |text|
  {
    if text != "" && IsSpace(text[0]) {
      CollapseStarts(text[1..]);
    }
  }

  /** A quoted banner before a command, in any spelling, leaves its normal form as it is. */
  lemma BannerIgnored(text: string, quote: char, command: string)
    requires IsQuote(quote) && AllOf(text, IsQuotable)
    requires Collapse(Lower(command)) != "" && Collapse(Lower(command))[0] != ';'
    ensures Normal(Banner(text, quote) + " " + command) == Normal(command)
  {
    var banner, lower := Banner(text, quote), Lower(command);
    var rest := Collapse(lower);
    assert banner + " " + command == banner + (" " + command);
    LowerAppend(banner, " " + command);
    assert Lower(" " + command) == " " + lower && (" " + lower)[1..] == lower;
    SplitAppend(Lower(banner), " " + lower, IsSpace);
    var spaced := BannerSpelled(text, quote);
    JoinAppend(Words(Lower(banner)), Words(lower));
    assert Collapse(Lower(banner + " " + command)) == Banner(spaced, quote) + " " + rest;
    CollapseStarts(lower);
    BannerUnwraps(spaced, quote, rest);
  }

  // ---- Cosmetics are ignored -------------------------------------------------------------------

  /** Words no cosmetic can start with. */
  predicate Substantive(words: seq<string>) {
    forall i :: 0 <= i < |words| ==> !IsFlag(words[i]) && !TakesFormat(words[i]) && words[i] != "|"
  }

  lemma {:induction false} SubstanceStays(core: seq<string>, more: seq<string>)
    requires Substantive(core)
    ensures Clean(core + more) == core + Clean(more)
  {
    if core == [] {
      assert core + more == more;
    } else {
      assert (core + more)[0] == core[0] && (core + more)[1..] == core[1..] + more;
      SubstanceStays(core[1..], more);
    }
  }

  /** What the scan drops in one go. The two cut forms lack their last word; they can only end a command. */
  datatype Cosmetic =
    | Flag(word: string)
    | Format(option: string, format: string)
    | FormatCut(option: string)
    | Pager(pager: string)
    | PagerCount(pager: string, count: string)
    | PagerLines(pager: string, option: string, count: string)
    | PagerCut(pager: string, option: string)
  {
    predicate Legal() {
      match this
      case Flag(word) => IsFlag(word)
      case Format(option, _) => TakesFormat(option)
      case FormatCut(option) => TakesFormat(option)
      case Pager(pager) => IsPager(pager)
      case PagerCount(pager, count) => IsPager(pager) && IsCount(count)
      case PagerLines(pager, option, _) => IsPager(pager) && TakesCount(option)
      case PagerCut(pager, option) => IsPager(pager) && TakesCount(option)
    }

    function Spelled(): (words: seq<string>) {
      match this
      case Flag(word) => [word]
      case Format(option, format) => [option, format]
      case FormatCut(option) => [option]
      case Pager(pager) => ["|", pager]
      case PagerCount(pager, count) => ["|", pager, count]
      case PagerLines(pager, option, count) => ["|", pager, option, count]
      case PagerCut(pager, option) => ["|", pager, option]
    }

    predicate IsCut() {
      FormatCut? || PagerCut?
    }
  }

  function AllSpelled(cosmetics: seq<Cosmetic>): (words: seq<string>) {
    if cosmetics == [] then [] else cosmetics[0].Spelled() + AllSpelled(cosmetics[1..])
  }

  predicate AllLegal(cosmetics: seq<Cosmetic>) {
    forall i :: 0 <= i < |cosmetics| ==> cosmetics[i].Legal() && (cosmetics[i].IsCut() ==> i == |cosmetics| - 1)
  }

  lemma CountOption(word: string)
    requires TakesCount(word)
    ensures !IsCount(word)
  {
    assert DropWhile(word, IsDash) == word[1..];
  }

  /** No cosmetic starts with what a pager could take for a line count. */
  lemma StartIsNoCount(c: Cosmetic)
    requires c.Legal()
    ensures c.Spelled() != [] && !TakesCount(c.Spelled()[0]) && !IsCount(c.Spelled()[0])
  {
    var word := c.Spelled()[0];
    if c.Flag? || c.Format? || c.FormatCut? {
      OptionIsNoCount(word);
    }
  }

  lemma OptionIsNoCount(word: string)
    requires IsFlag(word) || TakesFormat(word)
    ensures !TakesCount(word) && !IsCount(word)
  {
    var n := if word == "-q" || word == "-o" then 1 else 2;
    if n == 2 {
      assert DropWhile(word, IsDash) == DropWhile(word[1..], IsDash);
      assert DropWhile(word[1..], IsDash) == DropWhile(word[1..][1..], IsDash) == word[1..][1..];
    } else {
      assert DropWhile(word, IsDash) == word[1..];
    }
    assert !IsDigit(DropWhile(word, IsDash)[0]);
  }

  /** A legal cosmetic before a text that does not start with a line count is dropped as one. */
  lemma CosmeticDrops(c: Cosmetic, more: seq<string>)
    requires c.Legal() && (c.IsCut() ==> more == [])
    requires more == [] || (!TakesCount(more[0]) && !IsCount(more[0]))
    ensures Clean(c.Spelled() + more) == Clean(more)
  {
    var words := c.Spelled() + more;
    CosmeticIsWhole(c, more);
    assert words[|c.Spelled()|..] == more;
  }

  lemma CosmeticIsWhole(c: Cosmetic, more: seq<string>)
    requires c.Legal() && (c.IsCut() ==> more == [])
    requires more == [] || (!TakesCount(more[0]) && !IsCount(more[0]))
    ensures CosmeticLength(c.Spelled() + more) == |c.Spelled()| > 0
  {
    hide IsFlag, TakesFormat, IsPager, TakesCount, IsCount;
    PipeIsPlain();
    match c
    case Format(option, _) => FormatIsNoFlag(option);
    case FormatCut(option) => FormatIsNoFlag(option);
    case PagerCount(_, count) =>
      if TakesCount(count) {
        CountOption(count);
      }
    case _ =>
  }

  lemma {:induction false} CosmeticsVanish(cosmetics: seq<Cosmetic>)
    requires AllLegal(cosmetics)
    ensures Clean(AllSpelled(cosmetics)) == []
  {
    if cosmetics != [] {
      var more := AllSpelled(cosmetics[1..]);
      if |cosmetics| > 1 {
        StartIsNoCount(cosmetics[1]);
        assert cosmetics[1..][1..] == cosmetics[2..];
        assert more == cosmetics[1].Spelled() + AllSpelled(cosmetics[2..]);
        assert more[0] == cosmetics[1].Spelled()[0];
      }
      CosmeticsVanish(cosmetics[1..]);
      CosmeticDrops(cosmetics[0], more);
    }
  }

  /** The cosmetic the scan drops at the start. */
  lemma FirstCosmetic(words: seq<string>) returns (c: Cosmetic)
    requires CosmeticLength(words) > 0
    ensures c.Legal() && c.Spelled() == words[..CosmeticLength(words)]
    ensures c.IsCut() ==> CosmeticLength(words) == |words|
  {
    hide IsFlag, TakesFormat, IsPager, TakesCount, IsCount;
    if IsFlag(words[0]) {
      c := Flag(words[0]);
    } else if TakesFormat(words[0]) {
      c := if |words| > 1 then Format(words[0], words[1]) else FormatCut(words[0]);
    } else if |words| == 2 {
      c := Pager(words[1]);
    } else if TakesCount(words[2]) {
      c := if |words| > 3 then PagerLines(words[1], words[2], words[3]) else PagerCut(words[1], words[2]);
    } else if IsCount(words[2]) {
      c := PagerCount(words[1], words[2]);
    } else {
      c := Pager(words[1]);
    }
  }

  lemma {:induction false} VanishedIsCosmetic(words: seq<string>) returns (cosmetics: seq<Cosmetic>)
    requires Clean(words) == []
    ensures AllLegal(cosmetics) && AllSpelled(cosmetics) == words
    decreases |words|
  {
    if words == [] {
      cosmetics := [];
    } else {
      var n := CosmeticLength(words);
      var c := FirstCosmetic(words);
      var more := VanishedIsCosmetic(words[n..]);
      cosmetics := [c] + more;
      assert cosmetics[1..] == more && words[..n] + words[n..] == words;
      if c.IsCut() && more != [] {
        SpelledIsSome(more);
      }
    }
  }

  lemma SpelledIsSome(cosmetics: seq<Cosmetic>)
    requires cosmetics != []
    ensures AllSpelled(cosmetics) != []
  {
  }

  /** Nothing remains of a text exactly when it is made of cosmetics, of any kind and number. */
  lemma VanishesIff(words: seq<string>)
    ensures Clean(words) == [] <==> exists cosmetics :: AllLegal(cosmetics) && AllSpelled(cosmetics) == words
  {
    if Clean(words) == [] {
      var cosmetics := VanishedIsCosmetic(words);
    }
    if cosmetics :| AllLegal(cosmetics) && AllSpelled(cosmetics) == words {
      CosmeticsVanish(cosmetics);
    }
  }

  /** Two commands that differ only in cosmetics behind the same substance have the same normal form. */
  lemma CosmeticsIgnored(a: string, b: string, core: seq<string>, x: seq<string>, y: seq<string>)
    requires Words(Peeled(Collapse(Lower(a)))) == core + x && Words(Peeled(Collapse(Lower(b)))) == core + y
    requires Substantive(core) && Clean(x) == [] && Clean(y) == []
    ensures Normal(a) == Normal(b) == Join(core)
  {
    SubstanceStays(core, x);
    SubstanceStays(core, y);
    assert core + [] == core;
  }

  /** Plain words behind no echo are their own normal form. */
  lemma PlainIsNormal(words: seq<string>)
    requires words != [] && AreWords(words) && Substantive(words)
    requires Lower(Join(words)) == Join(words) && Join(words) != "" && !IsSpace(Join(words)[0])
    requires !Starts(Join(words), "echo ")
    ensures Normal(Join(words)) == Join(words)
  {
    hide Clean, Split, Join;
    var text := Join(words);
    WordsOfJoin(words);
    assert DropWhile(text, IsSpace) == text;
    assert Unwrapped(text) == text;
    SubstanceStays(words, []);
    NothingKept();
    assert words + [] == words;
  }

  predicate HasPager(words: seq<string>) {
    exists i | 0 <= i < |words| - 1 :: words[i] == "|" && IsPager(words[i + 1])
  }

  lemma {:induction false} CleanShortens(words: seq<string>)
    ensures |Clean(words)| <= |words|
  {
    if words != [] {
      var n := CosmeticLength(words);
      CleanShortens(words[if n == 0 then 1 else n..]);
    }
  }

  lemma {:induction false} CleanIsIdentityIff(words: seq<string>)
    requires forall w :: w in words ==> !IsFlag(w) && !TakesFormat(w)
    ensures Clean(words) == words <==> !HasPager(words)
  {
    if words != [] {
      var n := CosmeticLength(words);
      assert words == [words[0]] + words[1..];
      if n == 0 {
        CleanIsIdentityIff(words[1..]);
        if HasPager(words[1..]) {
          var i :| 0 <= i < |words[1..]| - 1 && words[1..][i] == "|" && IsPager(words[1..][i + 1]);
          assert words[i + 1] == "|" && IsPager(words[i + 2]);
        }
      } else {
        CleanShortens(words[n..]);
        assert words[0] == "|" && IsPager(words[0 + 1]);
      }
    }
  }

  function StepLength(words: seq<string>): (n: nat)
    requires words != []
    ensures 1 <= n <= |words|
  {
    if CosmeticLength(words) == 0 then 1 else CosmeticLength(words)
  }

  /** The scan looks at word `i`. */
  predicate Reached(words: seq<string>, i: nat)
    requires i <= |words|
  {
    i == 0 || (StepLength(words) <= i && Reached(words[StepLength(words)..], i - StepLength(words)))
  }

  /** The first `k` words are dropped. */
  predicate Dropped(words: seq<string>, k: nat)
    requires k <= |words|
  {
    k == 0 || (0 < CosmeticLength(words) <= k && Dropped(words[CosmeticLength(words)..], k - CosmeticLength(words)))
  }

  /** A pipe the scan keeps, then only words it drops, then a pager. */
  predicate HiddenAt(words: seq<string>, i: nat, j: nat) {
    && i < j < |words| && Reached(words, i) && words[i] == "|" && !PagerAt(words, i)
    && Dropped(words[i + 1..], j - i - 1) && IsPager(words[j])
  }

  predicate HidesPager(words: seq<string>) {
    exists i, j | 0 <= i < j < |words| :: HiddenAt(words, i, j)
  }

  lemma PagerIsKept(words: seq<string>)
    requires words != [] && IsPager(words[0])
    ensures CosmeticLength(words) == 0
  {
  }

  /** What remains starts with a pager exactly when a pager follows dropped words. */
  lemma {:induction false} StartsWithPager(words: seq<string>) returns (k: nat)
    requires Clean(words) != [] && IsPager(Clean(words)[0])
    ensures k < |words| && Dropped(words, k) && IsPager(words[k])
    decreases |words|
  {
    hide IsPager, IsFlag;
    var n := CosmeticLength(words);
    if n == 0 {
      k := 0;
    } else {
      var more := StartsWithPager(words[n..]);
      k := n + more;
      assert words[k] == words[n..][more];
    }
  }

  lemma {:induction false} PagerAfterDropped(words: seq<string>, k: nat)
    requires k < |words| && Dropped(words, k) && IsPager(words[k])
    ensures Clean(words) != [] && IsPager(Clean(words)[0])
    decreases |words|
  {
    if k == 0 {
      PagerIsKept(words);
    } else {
      hide IsPager, IsFlag;
      var n := CosmeticLength(words);
      assert words[k] == words[n..][k - n];
      PagerAfterDropped(words[n..], k - n);
    }
  }

  lemma HiddenShifts(words: seq<string>, n: nat, i: nat, j: nat)
    requires words != [] && n == StepLength(words) <= i < j < |words|
    ensures HiddenAt(words, i, j) <==> HiddenAt(words[n..], i - n, j - n)
  {
    hide IsPager, CosmeticLength, Dropped;
    var more := words[n..];
    assert more[i - n] == words[i] && more[j - n] == words[j];
    assert i + 1 < |words| ==> more[i - n + 1] == words[i + 1];
    assert more[i - n + 1..] == words[i + 1..];
  }

  /** No pipe within a cosmetic is kept. */
  lemma HiddenIsLater(words: seq<string>, i: nat, j: nat)
    requires HiddenAt(words, i, j)
    ensures i >= StepLength(words) || (i == 0 && StepLength(words) == 1 && CosmeticLength(words) == 0)
  {
    hide IsPager, IsFlag, TakesFormat, Dropped;
    PipeIsPlain();
  }

  lemma PagerBehind(x: string, rest: seq<string>)
    ensures HasPager([x] + rest) <==> HasPager(rest) || (x == "|" && rest != [] && IsPager(rest[0]))
  {
    hide IsPager;
    var words := [x] + rest;
    if HasPager(rest) {
      var k :| 0 <= k < |rest| - 1 && rest[k] == "|" && IsPager(rest[k + 1]);
      assert words[k + 1] == "|" && IsPager(words[k + 1 + 1]);
    }
    if x == "|" && rest != [] && IsPager(rest[0]) {
      assert words[0] == "|" && IsPager(words[0 + 1]);
    }
    if HasPager(words) {
      var k :| 0 <= k < |words| - 1 && words[k] == "|" && IsPager(words[k + 1]);
      if k > 0 {
        assert rest[k - 1] == "|" && IsPager(rest[k - 1 + 1]);
      }
    }
  }

  /** A pager behind a pipe is kept at the first step, or later. */
  lemma PagerSteps(words: seq<string>)
    requires words != []
    ensures var rest := Clean(words[StepLength(words)..]);
      HasPager(Clean(words)) <==>
        (HasPager(rest) || (CosmeticLength(words) == 0 && words[0] == "|" && rest != [] && IsPager(rest[0])))
  {
    hide Clean, HasPager, IsPager, CosmeticLength;
    var rest := Clean(words[StepLength(words)..]);
    CleanSteps(words);
    PagerBehind(words[0], rest);
    assert [] + rest == rest;
  }

  lemma {:induction false} HiddenShows(words: seq<string>, i: nat, j: nat)
    requires HiddenAt(words, i, j)
    ensures HasPager(Clean(words))
    decreases |words|
  {
    hide IsPager, CosmeticLength, Dropped, HiddenAt, HasPager, Clean;
    HiddenIsLater(words, i, j);
    HiddenWithin(words, i, j);
    var n := StepLength(words);
    PagerSteps(words);
    if i >= n {
      HiddenShifts(words, n, i, j);
      HiddenShows(words[n..], i - n, j - n);
    } else {
      HiddenFirst(words, j);
    }
  }

  lemma HiddenWithin(words: seq<string>, i: nat, j: nat)
    requires HiddenAt(words, i, j)
    ensures i < j < |words|
  {
  }

  lemma CleanSteps(words: seq<string>)
    requires words != []
    ensures Clean(words) == (if CosmeticLength(words) == 0 then [words[0]] else []) + Clean(words[StepLength(words)..])
  {
  }

  lemma HiddenFirst(words: seq<string>, j: nat)
    requires HiddenAt(words, 0, j) && CosmeticLength(words) == 0
    ensures var rest := Clean(words[StepLength(words)..]);
      words[0] == "|" && rest != [] && IsPager(rest[0])
  {
    hide IsPager, CosmeticLength, Dropped, Clean;
    var more := words[1..];
    assert more[j - 1] == words[j];
    PagerAfterDropped(more, j - 1);
  }

  lemma {:induction false} ShownWasHidden(words: seq<string>)
    requires HasPager(Clean(words))
    ensures HidesPager(words)
    decreases |words|
  {
    hide IsPager, CosmeticLength, Dropped, HiddenAt, Clean;
    assert words != [] by { NothingKept(); }
    var n := StepLength(words);
    PagerSteps(words);
    if HasPager(Clean(words[n..])) {
      ShownWasHidden(words[n..]);
      var i, j :| 0 <= i < j < |words[n..]| && HiddenAt(words[n..], i, j);
      HiddenShifts(words, n, i + n, j + n);
      assert HiddenAt(words, i + n, j + n);
    } else {
      var m := StartsWithPager(words[1..]);
      FirstHidden(words, m);
    }
  }

  lemma FirstHidden(words: seq<string>, m: nat)
    requires words != [] && words[0] == "|" && CosmeticLength(words) == 0
    requires m < |words[1..]| && Dropped(words[1..], m) && IsPager(words[1..][m])
    ensures HidesPager(words)
  {
    hide IsPager, Dropped;
    PipeIsPlain();
    assert HiddenAt(words, 0, m + 1);
  }

  /**
   Dropping cosmetics a second time drops more exactly when the scan keeps a pipe that only dropped words
   separate from a pager.
   */
  lemma CleanTwiceIff(words: seq<string>)
    ensures Clean(Clean(words)) != Clean(words) <==> HidesPager(words)
  {
    hide HiddenAt;
    CleanKeepsWords(words);
    CleanIsIdentityIff(Clean(words));
    if HasPager(Clean(words)) {
      ShownWasHidden(words);
    }
    if HidesPager(words) {
      var i, j :| 0 <= i < j < |words| && HiddenAt(words, i, j);
      HiddenShows(words, i, j);
    }
  }

  lemma SwitchHidesPager()
    ensures Clean(["|", "--no-pager", "tail"]) == ["|", "tail"] && Clean(["|", "tail"]) == []
  {
    var words := ["|", "--no-pager", "tail"];
    assert words[1..] == ["--no-pager", "tail"] && words[1..][1..] == ["tail"];
    assert Clean(["tail"]) == ["tail"];
    assert ["|", "tail"][2..] == [];
  }
}
