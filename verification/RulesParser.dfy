/** Reading rules from text and printing them back.  A rule is a line, a line is a list of tokens
    separated by spaces. */
module RulesParser {

  type Text = seq<char>
  type Tokens = seq<Text>

  const SPACE := ' '
  const NEWLINE := '\n'
  const NUL := '\0'

  /** The first c, or the length. */
  function Until(s: Text, c: char): (k: nat)
    ensures k <= |s|
    ensures k < |s| ==> s[k] == c
    ensures forall i | 0 <= i < k :: s[i] != c
  {
    if |s| == 0 || s[0] == c then 0 else 1 + Until(s[1..], c)
  }

  lemma UntilIs(s: Text, c: char, k: nat)
    requires k <= |s| && (k < |s| ==> s[k] == c) && forall i | 0 <= i < k :: s[i] != c
    ensures Until(s, c) == k
  {}

  /** The tokens of a line: its longest runs without a space, from left to right. */
  function Words(s: Text): Tokens
    decreases |s|
  {
    if |s| == 0 then []
    else if s[0] == SPACE then Words(s[1..])
    else
      var k := Until(s, SPACE);
      [s[..k]] + Words(s[k..])
  }

  /** The lines of a text; a final newline does not start another line. */
  function Lines(t: Text): seq<Text>
    decreases |t|
  {
    if |t| == 0 then []
    else
      var k := Until(t, NEWLINE);
      [t[..k]] + if k < |t| then Lines(t[k + 1..]) else []
  }

  function ParseAll(lines: seq<Text>): (rules: seq<Tokens>)
    ensures |rules| == |lines|
  {
    seq(|lines|, i requires 0 <= i < |lines| => Words(lines[i]))
  }

  /** The rules that a text holds, one for every line, empty lines included. */
  function Read(t: Text): seq<Tokens> {
    ParseAll(Lines(t))
  }

  /** Printing a C string stops at the first NUL. */
  function AsCString(s: Text): Text {
    s[..Until(s, NUL)]
  }

  function PrintRule(tokens: Tokens): Text {
    if |tokens| == 0 then [] else AsCString(tokens[0]) + [SPACE] + PrintRule(tokens[1..])
  }

  function Print(rules: seq<Tokens>): Text {
    if |rules| == 0 then [] else PrintRule(rules[0]) + [NEWLINE] + Print(rules[1..])
  }

  // ---------- tokens ----------

  predicate Token(s: Text) {
    |s| > 0 && SPACE !in s
  }

  /** Every token is nonempty, free of spaces and made of characters of the line. */
  lemma {:induction false} WordsAreTokens(s: Text)
    ensures forall w | w in Words(s) :: Token(w) && forall c | c in w :: c in s
    decreases |s|
  {
    if |s| > 0 {
      if s[0] == SPACE {
        WordsAreTokens(s[1..]);
      } else {
        WordsAreTokens(s[Until(s, SPACE)..]);
      }
    }
  }

  /** A line without its spaces, and tokens run together. */
  function Squeezed(s: Text): Text {
    if |s| == 0 then [] else (if s[0] == SPACE then [] else [s[0]]) + Squeezed(s[1..])
  }

  function Joined(tokens: Tokens): Text {
    if |tokens| == 0 then [] else tokens[0] + Joined(tokens[1..])
  }

  lemma {:induction false} SqueezedRun(s: Text, k: nat)
    requires k <= |s| && forall i | 0 <= i < k :: s[i] != SPACE
    ensures Squeezed(s) == s[..k] + Squeezed(s[k..])
    decreases k
  {
    if k > 0 {
      SqueezedRun(s[1..], k - 1);
      assert s[1..][k - 1..] == s[k..];
      assert s[..k] == [s[0]] + s[1..][..k - 1];
    }
  }

  /** Nothing but spaces is lost, and the order is kept. */
  lemma {:induction false} WordsKeepText(s: Text)
    ensures Joined(Words(s)) == Squeezed(s)
    decreases |s|
  {
    if |s| > 0 {
      if s[0] == SPACE {
        WordsKeepText(s[1..]);
      } else {
        var k := Until(s, SPACE);
        WordsKeepText(s[k..]);
        SqueezedRun(s, k);
        assert Words(s)[1..] == Words(s[k..]);
      }
    }
  }

  lemma TokenFirst(w: Text, rest: Text)
    requires Token(w)
    ensures Words(w + [SPACE] + rest) == [w] + Words(rest)
  {
    var s := w + [SPACE] + rest;
    UntilIs(s, SPACE, |w|);
    assert s[..|w|] == w && s[|w|..] == [SPACE] + rest;
    assert s[|w|..][1..] == rest;
  }

  // ---------- printing and reading back ----------

  /** What survives printing: tokens cut at their first NUL, if anything is left of them. */
  function Survivors(tokens: Tokens): Tokens {
    if |tokens| == 0 then []
    else (if |AsCString(tokens[0])| > 0 then [AsCString(tokens[0])] else []) + Survivors(tokens[1..])
  }

  ghost predicate AllTokens(tokens: Tokens) {
    forall w | w in tokens :: Token(w)
  }

  ghost predicate Without(tokens: Tokens, c: char) {
    forall w | w in tokens :: c !in w
  }

  lemma {:induction false} PrintedWords(tokens: Tokens)
    requires AllTokens(tokens)
    ensures Words(PrintRule(tokens)) == Survivors(tokens)
    decreases |tokens|
  {
    if |tokens| > 0 {
      assert tokens[0] in tokens;
      PrintedWords(tokens[1..]);
      var w := AsCString(tokens[0]);
      if |w| > 0 {
        TokenFirst(w, PrintRule(tokens[1..]));
      } else {
        assert PrintRule(tokens)[1..] == PrintRule(tokens[1..]);
      }
    }
  }

  lemma {:induction false} PrintedLine(tokens: Tokens)
    requires Without(tokens, NEWLINE)
    ensures NEWLINE !in PrintRule(tokens)
    decreases |tokens|
  {
    if |tokens| > 0 {
      assert tokens[0] in tokens;
      PrintedLine(tokens[1..]);
    }
  }

  function Weight(tokens: Tokens): nat {
    if |tokens| == 0 then 0 else |tokens[0]| + Weight(tokens[1..])
  }

  /** Everything survives exactly when there is no NUL. */
  lemma {:induction false} SurvivorsIffNulFree(tokens: Tokens)
    requires AllTokens(tokens)
    ensures Weight(Survivors(tokens)) <= Weight(tokens)
    ensures Without(tokens, NUL) ==> Survivors(tokens) == tokens
    ensures !Without(tokens, NUL) ==> Weight(Survivors(tokens)) < Weight(tokens)
    decreases |tokens|
  {
    if |tokens| > 0 {
      var w, rest := tokens[0], tokens[1..];
      assert w in tokens && tokens == [w] + rest;
      SurvivorsIffNulFree(rest);
      CutIffNul(w);
      var s := Survivors(tokens);
      if |AsCString(w)| > 0 {
        assert s[0] == AsCString(w) && s[1..] == Survivors(rest);
      } else {
        assert s == Survivors(rest);
      }
    }
  }

  lemma CutIffNul(w: Text)
    ensures NUL !in w ==> AsCString(w) == w
    ensures NUL in w ==> |AsCString(w)| < |w|
  {}

  /** A first line, and the rest of a text. */
  lemma LinesCons(line: Text, rest: Text)
    requires NEWLINE !in line
    ensures Lines(line + [NEWLINE] + rest) == [line] + Lines(rest)
  {
    var t := line + [NEWLINE] + rest;
    UntilIs(t, NEWLINE, |line|);
    hide Until;
    assert t[..|line|] == line && t[|line| + 1..] == rest;
  }

  lemma ParseAllCons(line: Text, rest: seq<Text>)
    ensures ParseAll([line] + rest) == [Words(line)] + ParseAll(rest)
  {
    hide Words;
  }

  lemma ReadCons(line: Text, rest: Text)
    requires NEWLINE !in line
    ensures Read(line + [NEWLINE] + rest) == [Words(line)] + Read(rest)
  {
    hide Words, Lines, ParseAll;
    LinesCons(line, rest);
    ParseAllCons(line, Lines(rest));
  }

  /** What survives of every rule. */
  function AllSurvivors(rules: seq<Tokens>): (s: seq<Tokens>)
    ensures |s| == |rules| && forall i | 0 <= i < |rules| :: s[i] == Survivors(rules[i])
  {
    if |rules| == 0 then [] else [Survivors(rules[0])] + AllSurvivors(rules[1..])
  }

  /** What reading back gives, whatever was printed. */
  lemma {:induction false} ReadBack(rules: seq<Tokens>)
    requires forall r | r in rules :: AllTokens(r) && Without(r, NEWLINE)
    ensures Read(Print(rules)) == AllSurvivors(rules)
    decreases |rules|
  {
    hide Words, PrintRule, Survivors, AllTokens, Without;
    if |rules| > 0 {
      assert rules[0] in rules;
      PrintedLine(rules[0]);
      PrintedWords(rules[0]);
      ReadBack(rules[1..]);
      ReadCons(PrintRule(rules[0]), Print(rules[1..]));
    }
  }

  lemma {:induction false} LinesHaveNoNewline(t: Text)
    ensures forall l | l in Lines(t) :: NEWLINE !in l
    ensures forall l | l in Lines(t) :: forall c | c in l :: c in t
    decreases |t|
  {
    if |t| > 0 {
      var k := Until(t, NEWLINE);
      if k < |t| {
        LinesHaveNoNewline(t[k + 1..]);
      }
    }
  }

  /** Whatever was read is made of tokens without newlines. */
  lemma ReadIsClean(t: Text)
    ensures forall r | r in Read(t) :: AllTokens(r) && Without(r, NEWLINE)
  {
    LinesHaveNoNewline(t);
    forall r | r in Read(t)
      ensures AllTokens(r) && Without(r, NEWLINE)
    {
      var i :| 0 <= i < |Lines(t)| && r == Words(Lines(t)[i]);
      assert Lines(t)[i] in Lines(t);
      WordsAreTokens(Lines(t)[i]);
    }
  }

  /** Printing what was read from a text and reading it again gives the same rules, empty lines and
      repeated spaces included, if and only if the text has no NUL. */
  lemma PrintReadRoundTrip(t: Text)
    ensures Read(Print(Read(t))) == Read(t) <==> NUL !in t
  {
    var rules := Read(t);
    ReadIsClean(t);
    ReadBack(rules);
    if NUL !in t {
      forall i | 0 <= i < |rules|
        ensures Survivors(rules[i]) == rules[i]
      {
        assert rules[i] in rules;
        NulFreeRule(t, i);
        SurvivorsIffNulFree(rules[i]);
      }
    } else {
      var r := NulInRule(t);
      var i :| 0 <= i < |rules| && rules[i] == r;
      SurvivorsIffNulFree(r);
      assert AllSurvivors(rules)[i] != rules[i];
    }
  }

  lemma NulFreeRule(t: Text, i: nat)
    requires NUL !in t && i < |Read(t)|
    ensures Without(Read(t)[i], NUL)
  {
    LinesHaveNoNewline(t);
    assert Lines(t)[i] in Lines(t);
    WordsAreTokens(Lines(t)[i]);
  }

  /** A NUL is neither a space nor a newline, so it ends up in some token. */
  lemma {:induction false} NulInRule(t: Text) returns (r: Tokens)
    requires NUL in t
    ensures r in Read(t) && !Without(r, NUL)
    decreases |t|
  {
    hide Words, Without, Read;
    var k := Until(t, NEWLINE);
    FirstLine(t, 0, k);
    assert t[0..] == t && t[0..k] == t[..k];
    if NUL in t[..k] {
      r := Words(t[..k]);
      NulInWords(t[..k]);
    } else {
      NulAfter(t, k);
      r := NulInRule(t[k + 1..]);
    }
  }

  lemma NulAfter(t: Text, k: nat)
    requires NUL in t && k <= |t| && NUL !in t[..k] && (k < |t| ==> t[k] == NEWLINE)
    ensures k < |t| && NUL in t[k + 1..]
  {
    assert t == t[..k] + t[k..];
    if k < |t| {
      assert t[k..] == [NEWLINE] + t[k + 1..];
    }
  }

  lemma {:induction false} NulInWords(s: Text)
    requires NUL in s
    ensures !Without(Words(s), NUL)
    decreases |s|
  {
    if s[0] == SPACE {
      NulInWords(s[1..]);
    } else {
      var k := Until(s, SPACE);
      assert s == s[..k] + s[k..];
      if NUL in s[..k] {
        assert s[..k] in Words(s);
      } else {
        NulInWords(s[k..]);
        var w :| w in Words(s[k..]) && NUL in w;
        assert w in Words(s);
      }
    }
  }

  // ---------- an example ----------

  /** Three lines: two tokens with spaces between, an empty line, and a token between spaces. */
  lemma ReadExample()
    ensures Read("drl  1\n\n x \n") == [["drl", "1"], [], ["x"]]
  {
    TwoTokens();
    OneToken();
    NothingToRead();
    hide Words, Read;
    ReadCons(" x ", "");
    ReadCons("", " x \n");
    ReadCons("drl  1", "\n x \n");
    assert " x " + [NEWLINE] + "" == " x \n";
    assert "" + [NEWLINE] + " x \n" == "\n x \n";
    assert "drl  1" + [NEWLINE] + "\n x \n" == "drl  1\n\n x \n";
  }

  lemma TwoTokens()
    ensures Words("drl  1") == ["drl", "1"]
  {
    TokenFirst("drl", " 1");
    assert "drl" + [SPACE] + " 1" == "drl  1";
    assert " 1"[1..] == "1";
    OneWord("1", 0, 1);
    assert "1"[0..] == "1" && "1"[0..1] == "1" && "1"[1..] == "";
  }

  lemma OneToken()
    ensures Words(" x ") == ["x"]
  {
    assert " x "[1..] == "x ";
    TokenFirst("x", "");
    assert "x" + [SPACE] + "" == "x ";
  }

  /** Printed tokens end in a space, rules in a newline, and a NUL ends a token. */
  lemma PrintExample()
    ensures Print([["drl", "1"], []]) == "drl 1 \n\n"
    ensures PrintRule(["a\0b"]) == "a "
  {
    UntilIs("drl", NUL, 3);
    UntilIs("1", NUL, 1);
    UntilIs("a\0b", NUL, 1);
    hide Until;
    assert ["drl", "1"][1..] == ["1"] && ["1"][1..] == [] && ["a\0b"][1..] == [];
    assert PrintRule(["1"]) == "1 ";
    assert PrintRule(["drl", "1"]) == "drl 1 ";
    var rules: seq<Tokens> := [["drl", "1"], []];
    assert rules[1..] == [[]] && rules[1..][1..] == [];
    assert Print(rules[1..]) == "\n";
  }

  // ---------- the class ----------

  const NPOS: nat := 0xFFFF_FFFF_FFFF_FFFF

  /** The standard string searches: a position from `from` on, or NPOS. */
  function FindFirstNotOf(s: Text, c: char, from: nat): (r: nat)
    ensures r == NPOS || (from <= r < |s| && s[r] != c)
    ensures forall i | from <= i < |s| && i < r :: s[i] == c
    decreases |s| - from
  {
    if from >= |s| || from >= NPOS then NPOS
    else if s[from] != c then from
    else FindFirstNotOf(s, c, from + 1)
  }

  function Find(s: Text, c: char, from: nat): (r: nat)
    ensures r == NPOS || (from <= r < |s| && s[r] == c)
    ensures forall i | from <= i < |s| && i < r :: s[i] != c
    decreases |s| - from
  {
    if from >= |s| || from >= NPOS then NPOS
    else if s[from] == c then from
    else Find(s, c, from + 1)
  }

  function Substr(s: Text, from: nat, count: nat): Text
    requires from <= |s|
  {
    if from + count < |s| then s[from..from + count] else s[from..]
  }

  lemma {:induction false} SkipSpaces(s: Text, from: nat, start: nat)
    requires from <= start <= |s| && forall i | from <= i < start :: s[i] == SPACE
    ensures Words(s[from..]) == Words(s[start..])
    decreases start - from
  {
    if from < start {
      SkipSpaces(s, from + 1, start);
      assert s[from..][1..] == s[from + 1..];
    }
  }

  lemma OneWord(s: Text, start: nat, stop: nat)
    requires start < stop <= |s| && (stop < |s| ==> s[stop] == SPACE)
    requires forall i | start <= i < stop :: s[i] != SPACE
    ensures Words(s[start..]) == [s[start..stop]] + Words(s[stop..])
  {
    UntilIs(s[start..], SPACE, stop - start);
    assert s[start..][..stop - start] == s[start..stop];
    assert s[start..][stop - start..] == s[stop..];
  }

  class RulesParser {
    var staged: seq<Tokens>

    constructor ()
      ensures staged == []
    {
      staged := [];
    }

    method ParseRule(rule: Text, tokens: Tokens) returns (more: Tokens)
      requires |rule| < NPOS
      ensures more == tokens + Words(rule)
    {
      hide Words, Find, FindFirstNotOf;
      NothingToRead();
      more := tokens;
      var end := 0;
      var start := FindFirstNotOf(rule, SPACE, end);
      assert rule[0..] == rule;
      while start != NPOS
        invariant end <= |rule| || end == NPOS
        invariant start == FindFirstNotOf(rule, SPACE, end)
        invariant more + Words(rule[if end == NPOS then |rule| else end..]) == tokens + Words(rule)
        decreases |rule| - if end == NPOS then |rule| else end, if start == NPOS then 0 else 1
      {
        SkipSpaces(rule, end, start);
        end := Find(rule, SPACE, start);
        ghost var stop := if end == NPOS then |rule| else end;
        OneWord(rule, start, stop);
        assert Substr(rule, start, end - start) == rule[start..stop];
        assert more + ([rule[start..stop]] + Words(rule[stop..])) == (more + [rule[start..stop]]) + Words(rule[stop..]);
        more := more + [Substr(rule, start, end - start)];
        start := FindFirstNotOf(rule, SPACE, end);
      }
      if end != NPOS {
        SkipSpaces(rule, end, |rule|);
      }
      assert rule[|rule|..] == [] && more + [] == more;
    }

    /** `text` is the content of the file, if it can be opened.  Returns the number of rules read. */
    method ReadRules(isOpen: bool, text: Text) returns (total: nat)
      requires |text| < NPOS
      modifies this
      ensures staged == old(staged) + if isOpen then Read(text) else []
      ensures total == |staged| - |old(staged)|
    {
      hide Read, Words, Lines;
      NothingToRead();
      total := 0;
      if isOpen {
        var position := 0;
        assert text[0..] == text;
        while position < |text|
          invariant position <= |text|
          invariant staged + Read(text[position..]) == old(staged) + Read(text)
          invariant total == |staged| - |old(staged)|
        {
          var newline := Find(text, NEWLINE, position);
          var end := if newline == NPOS then |text| else newline;
          var next := if newline == NPOS then |text| else newline + 1;
          FirstLine(text, position, end);
          var tokens := ParseRule(text[position..end], []);
          assert tokens == Words(text[position..end]);
          assert Read(text[position..]) == [tokens] + Read(text[next..]);
          staged := staged + [tokens];
          total := total + 1;
          position := next;
        }
        assert text[position..] == [];
      }
    }

    method EraseRules() returns (removed: nat)
      modifies this
      ensures staged == [] && removed == |old(staged)|
    {
      removed := 0;
      while |staged| > 0
        invariant removed + |staged| == |old(staged)|
      {
        staged := staged[1..];
        removed := removed + 1;
      }
    }

    method PrintRules() returns (text: Text)
      ensures text == Print(staged)
    {
      hide AsCString;
      text := [];
      for i := 0 to |staged|
        invariant text + Print(staged[i..]) == Print(staged)
      {
        ghost var before, rest := text, Print(staged[i + 1..]);
        assert staged[i..][1..] == staged[i + 1..];
        assert Print(staged[i..]) == PrintRule(staged[i]) + [NEWLINE] + rest;
        for j := 0 to |staged[i]|
          invariant text + PrintRule(staged[i][j..]) == before + PrintRule(staged[i])
        {
          text := text + AsCString(staged[i][j]) + [SPACE];
          assert staged[i][j..][1..] == staged[i][j + 1..];
        }
        assert text == before + PrintRule(staged[i]);
        text := text + [NEWLINE];
        assert text + rest == before + (PrintRule(staged[i]) + [NEWLINE] + rest);
      }
    }
  }

  lemma NothingToRead()
    ensures Read([]) == [] && Words([]) == []
  {}

  lemma FirstLine(text: Text, from: nat, end: nat)
    requires from < |text| && from <= end <= |text| && (end < |text| ==> text[end] == NEWLINE)
    requires forall i | from <= i < end :: text[i] != NEWLINE
    ensures Read(text[from..]) ==
      [Words(text[from..end])] + Read(text[if end < |text| then end + 1 else end..])
  {
    hide Words, Lines, ParseAll, Read;
    if end < |text| {
      assert text[from..] == text[from..end] + [NEWLINE] + text[end + 1..];
      ReadCons(text[from..end], text[end + 1..]);
    } else {
      assert text[from..] == text[from..end] && text[|text|..] == [];
      LastLine(text[from..end]);
    }
  }

  lemma LastLine(line: Text)
    requires |line| > 0 && NEWLINE !in line
    ensures Read(line) == [Words(line)] + Read([])
  {
    hide Words, ParseAll;
    LinesLast(line);
    ParseAllCons(line, []);
    assert [line] + [] == [line];
  }

  lemma LinesLast(line: Text)
    requires |line| > 0 && NEWLINE !in line
    ensures Lines(line) == [line] && Lines([]) == []
  {
    UntilIs(line, NEWLINE, |line|);
    hide Until;
    assert line[..|line|] == line;
  }
}
