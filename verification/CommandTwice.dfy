/** What normalising a command a second time changes: cosmetics or an echo that the first pass brought forward. */
module CommandTwice {
  import opened CommandForms
  import opened CommandText

  // ---- A normal form is in lower case ------------------------------------------------------------

  predicate IsLowChar(c: char) {
    LowerChar(c) == c
  }

  lemma {:induction false} PiecesKeep(text: string, sep: char -> bool, test: char -> bool)
    requires AllOf(text, test)
    ensures forall w :: w in Split(text, sep) ==> AllOf(w, test)
    decreases |text|
  {
    if text != "" {
      if sep(text[0]) {
        PiecesKeep(text[1..], sep, test);
      } else {
        var n := PieceEnd(text, sep);
        PiecesKeep(text[n..], sep, test);
        assert Split(text, sep) == [text[..n]] + Split(text[n..], sep);
      }
    }
  }

  lemma {:induction false} JoinKeeps(words: seq<string>, test: char -> bool)
    requires test(' ') && forall w :: w in words ==> AllOf(w, test)
    ensures AllOf(Join(words), test)
  {
    if words != [] {
      JoinKeeps(words[1..], test);
      assert words[0] in words;
    }
  }

  lemma SuffixKeeps(lead: string, rest: string, test: char -> bool)
    requires AllOf(lead + rest, test)
    ensures AllOf(rest, test)
  {
    forall i | 0 <= i < |rest| ensures test(rest[i]) {
      assert (lead + rest)[|lead| + i] == rest[i];
    }
  }

  lemma DropKeeps(text: string, drop: char -> bool, test: char -> bool)
    requires AllOf(text, test)
    ensures AllOf(DropWhile(text, drop), test)
  {
    var lead := DropWhileSplits(text, drop);
    SuffixKeeps(lead, DropWhile(text, drop), test);
  }

  lemma UnwrappedKeeps(text: string, test: char -> bool)
    requires AllOf(text, test)
    ensures AllOf(Unwrapped(text), test)
  {
    hide ClosingFrom, DropWhile;
    var trimmed := DropWhile(text, IsSpace);
    DropKeeps(text, IsSpace, test);
    if Starts(trimmed, "echo ") {
      DropKeeps(AfterArgument(trimmed[5..]), IsSeparator, test);
    }
  }

  lemma {:induction false} PeeledKeeps(text: string, test: char -> bool)
    requires AllOf(text, test)
    ensures AllOf(Peeled(text), test)
    decreases |text|
  {
    hide Unwrapped;
    UnwrappedKeeps(text, test);
    if Unwrapped(text) != text {
      PeeledKeeps(Unwrapped(text), test);
    }
  }

  /** The words whose cosmetics a first pass drops. */
  function FirstWords(command: string): (words: seq<string>) {
    Words(Peeled(Collapse(Lower(command))))
  }

  lemma NormalIsLow(command: string)
    ensures Lower(Normal(command)) == Normal(command)
  {
    hide Peeled, Clean, Split, Join;
    PiecesKeep(Lower(command), IsSpace, IsLowChar);
    JoinKeeps(Words(Lower(command)), IsLowChar);
    PeeledKeeps(Collapse(Lower(command)), IsLowChar);
    PiecesKeep(Peeled(Collapse(Lower(command))), IsSpace, IsLowChar);
    CleanKeepsWords(FirstWords(command));
    JoinKeeps(Clean(FirstWords(command)), IsLowChar);
  }

  /** A second pass starts from the form itself. */
  lemma SecondPass(command: string)
    ensures Normal(Normal(command)) == Join(Clean(Words(Peeled(Normal(command)))))
  {
    hide Normal, Peeled, Clean, Split, Join;
    NormalIsLow(command);
    NormalIsClean(command);
    NormalIs(Normal(command));
  }

  lemma NormalIs(command: string)
    ensures Normal(command) == Join(Clean(Words(Peeled(Collapse(Lower(command))))))
  {
  }

  // ---- Lengths -----------------------------------------------------------------------------------

  lemma {:induction false} CollapseShrinks(text: string)
    ensures |Collapse(text)| <= |text|
    decreases |text|
  {
    if text != "" {
      if IsSpace(text[0]) {
        CollapseShrinks(text[1..]);
      } else {
        var n := PieceEnd(text, IsSpace);
        var more := Words(text[n..]);
        JoinFirst(text[..n], more);
        if n < |text| {
          assert text[n..][1..] == text[n + 1..];
          CollapseShrinks(text[n + 1..]);
        }
      }
    }
  }

  lemma {:induction false} TailShrinks(words: seq<string>, n: nat)
    requires n <= |words|
    ensures |Join(words[n..])| <= |Join(words)|
  {
    if n > 0 {
      JoinFirst(words[0], words[1..]);
      assert [words[0]] + words[1..] == words;
      TailShrinks(words[1..], n - 1);
      assert words[1..][n - 1..] == words[n..];
    } else {
      assert words[n..] == words;
    }
  }

  lemma {:induction false} CleanShrinks(words: seq<string>)
    ensures |Join(Clean(words))| <= |Join(words)|
  {
    if words != [] {
      hide Join;
      var n := StepLength(words);
      CleanShrinks(words[n..]);
      CleanSteps(words);
      if CosmeticLength(words) == 0 {
        JoinFirst(words[0], words[1..]);
        JoinFirst(words[0], Clean(words[1..]));
        assert [words[0]] + words[1..] == words;
        if words[1..] == [] {
          NothingKept();
        }
      } else {
        TailShrinks(words, n);
        assert [] + Clean(words[n..]) == Clean(words[n..]);
      }
    }
  }

  lemma {:induction false} PeeledShrinks(text: string)
    ensures |Peeled(text)| <= |Unwrapped(text)|
    decreases |text|
  {
    hide Unwrapped;
    if Unwrapped(text) != text {
      PeeledShrinks(Unwrapped(text));
      assert |Unwrapped(Unwrapped(text))| <= |Unwrapped(text)|;
    }
  }

  // ---- The second pass -----------------------------------------------------------------------------

  /** The text leads with an echo that has something behind its argument. */
  predicate LeadsWithEcho(text: string) {
    Starts(text, "echo ") && DropWhile(AfterArgument(text[5..]), IsSeparator) != ""
  }

  lemma UnwrapsIff(text: string)
    requires text == "" || !IsSpace(text[0])
    ensures Unwrapped(text) != text <==> LeadsWithEcho(text)
  {
    assert DropWhile(text, IsSpace) == text;
    if LeadsWithEcho(text) {
      assert |DropWhile(AfterArgument(text[5..]), IsSeparator)| <= |text| - 5;
    }
  }

  lemma FormStarts(command: string)
    ensures Normal(command) == "" || !IsSpace(Normal(command)[0])
  {
    hide Normal, Split, Join;
    NormalIsClean(command);
    CollapseStarts(Normal(command));
  }

  lemma JoinTells(a: seq<string>, b: seq<string>)
    requires AreWords(a) && AreWords(b) && Join(a) == Join(b)
    ensures a == b
  {
    WordsOfJoin(a);
    WordsOfJoin(b);
  }

  /**
   Normalising twice is normalising once exactly when the form does not lead with an echo that hides
   something, and the first pass has not moved a pager behind a pipe.
   */
  lemma NormalTwiceIff(command: string)
    ensures Normal(Normal(command)) == Normal(command) <==>
      !LeadsWithEcho(Normal(command)) && !HidesPager(FirstWords(command))
  {
    hide Split, Join, Clean, Peeled, Unwrapped, LeadsWithEcho, HidesPager;
    var form, words := Normal(command), FirstWords(command);
    var kept := Clean(words);
    SecondPass(command);
    FormStarts(command);
    UnwrapsIff(form);
    SplitGivesPieces(Peeled(Collapse(Lower(command))), IsSpace);
    CleanedAreWords(words);
    if LeadsWithEcho(form) {
      PeeledShrinks(form);
      CollapseShrinks(Peeled(form));
      CleanShrinks(Words(Peeled(form)));
    } else {
      PeeledIs(form);
      WordsOfJoin(kept);
      CleanTwiceIff(words);
      CleanedAreWords(kept);
      if Join(Clean(kept)) == Join(kept) {
        JoinTells(Clean(kept), kept);
      }
    }
  }

  lemma PeeledIs(text: string)
    requires Unwrapped(text) == text
    ensures Peeled(text) == text
  {
  }

  /** A switch before plain words is dropped, and nothing else. */
  lemma SwitchDrops(words: seq<string>)
    requires words != [] && words[0] == "-q" && AreWords(words) && Substantive(words[1..])
    requires Lower(Join(words)) == Join(words)
    ensures Normal(Join(words)) == Join(words[1..])
  {
    hide Normal, Split, Join, Clean, Peeled;
    var text := Join(words);
    WordsOfJoin(words);
    NormalIs(text);
    StartsWithSwitch(words);
    Unechoed(text);
    assert words[0..] == words;
    FlagAt(words, 0);
    SubstanceStays(words[1..], []);
    NothingKept();
    assert words[1..] + [] == words[1..];
  }

  lemma StartsWithSwitch(words: seq<string>)
    requires words != [] && words[0] == "-q"
    ensures Join(words) != "" && Join(words)[0] == '-'
  {
  }

  lemma LsIsNormal()
    ensures Normal("ls") == "ls"
  {
    hide Normal;
    PlainIsNormal(["ls"]);
  }

  lemma EchoIsDropped()
    ensures Normal("echo 'x'; ls") == "ls"
  {
    hide Normal, Split, Join;
    WordsOfJoin(["ls"]);
    JoinedEcho();
    LsIsNormal();
    assert Collapse(Lower("ls")) == "ls" by { assert Lower("ls") == "ls"; }
    BannerIgnored("x", '\'', "ls");
    assert Banner("x", '\'') + " " + "ls" == "echo 'x'; ls";
  }

  /** A switch before an echo hides the echo from the first pass. */
  lemma SwitchHidesEcho()
    ensures Normal("-q echo 'x'; ls") == "echo 'x'; ls" && Normal("echo 'x'; ls") == "ls"
  {
    hide Normal, Join;
    var words := ["-q"] + ["echo", "'x';", "ls"];
    JoinedEcho();
    assert words[1..] == ["echo", "'x';", "ls"];
    SwitchDrops(words);
    EchoIsDropped();
  }

  lemma JoinedEcho()
    ensures Join(["-q"] + ["echo", "'x';", "ls"]) == "-q echo 'x'; ls" && Join(["ls"]) == "ls"
    ensures Join(["echo", "'x';", "ls"]) == "echo 'x'; ls"
  {
    JoinFirst("'x';", ["ls"]);
    JoinFirst("echo", ["'x';", "ls"]);
    JoinFirst("-q", ["echo", "'x';", "ls"]);
    assert ["'x';"] + ["ls"] == ["'x';", "ls"] && ["echo"] + ["'x';", "ls"] == ["echo", "'x';", "ls"];
  }

  lemma Unechoed(text: string)
    requires text != "" && !IsSpace(text[0]) && text[0] != 'e'
    ensures Peeled(text) == text
  {
    assert DropWhile(text, IsSpace) == text;
    assert Unwrapped(text) == text;
    PeeledIs(text);
  }
}
