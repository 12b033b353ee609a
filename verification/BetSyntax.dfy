/** The bet syntax: how a group message becomes an option and an amount, and that it reads back what the
    proposal post tells members to write. */
module BetSyntax {
  import opened Text

  datatype Option<T> = None | Some(value: T)

  /** An amount as written: units / 10^scale LP. */
  datatype Decimal = Decimal(units: nat, scale: nat)

  datatype Bet = Bet(option: string, amount: Decimal)

  /***** Characters *****/

  /** Lower case without whitespace. */
  function Squeeze(s: string): string {
    if s == [] then [] else (if IsSpace(s[0]) then [] else [Lower(s[0])]) + Squeeze(s[1..])
  }

  predicate AllDigits(s: string) {
    s != [] && OnlyDigits(s)
  }

  /***** Amounts *****/

  function Point(s: string): (p: nat)
    ensures p <= |s| && (p < |s| ==> s[p] == '.')
  {
    if s == [] || s[0] == '.' then 0 else 1 + Point(s[1..])
  }

  /** Digits, or digits, a point and digits. */
  function Numeral(s: string): Option<Decimal> {
    var p := Point(s);
    if p == |s| then
      if AllDigits(s) then Some(Decimal(Number(s), 0)) else None
    else if AllDigits(s[..p]) && AllDigits(s[p + 1..]) then
      Some(Decimal(Number(s[..p] + s[p + 1..]), |s| - p - 1))
    else None
  }

  predicate EndsInLp(s: string) {
    |s| >= 2 && s[|s| - 2..] == "lp"
  }

  /** parseLpAmount: a positive numeral, with or without a trailing lp, in any case and spacing. */
  function LpAmount(s: string): Option<Decimal> {
    var t := Squeeze(s);
    match Numeral(if EndsInLp(t) then t[..|t| - 2] else t)
    case None => None
    case Some(d) => if d.units > 0 then Some(d) else None
  }

  /***** Tokens *****/

  function WordLength(s: string): (n: nat)
    ensures n <= |s| && (s != [] && !IsSpace(s[0]) ==> n > 0)
  {
    if s == [] || IsSpace(s[0]) then 0 else 1 + WordLength(s[1..])
  }

  function SpaceLength(s: string): (n: nat)
    ensures n <= |s|
  {
    if s == [] || !IsSpace(s[0]) then 0 else 1 + SpaceLength(s[1..])
  }

  /** The text split at whitespace, without empty pieces. */
  function Words(s: string): seq<string>
    decreases |s|
  {
    if s == [] then []
    else if IsSpace(s[0]) then Words(s[1..])
    else [s[..WordLength(s)]] + Words(s[WordLength(s)..])
  }

  /** Without a leading @mention that is followed by whitespace. */
  function StripMention(s: string): string {
    if s == [] || s[0] != '@' then s
    else
      var n := WordLength(s[1..]);
      var m := SpaceLength(s[1 + n..]);
      if n > 0 && m > 0 then s[1 + n + m..] else s
  }

  /** A BET-12 token, which only says which proposal is meant. */
  predicate IsBetRef(t: string) {
    |t| > 4 && Squeeze(t[..4]) == "bet-" && AllDigits(t[4..])
  }

  function WithoutRefs(tokens: seq<string>): seq<string> {
    if tokens == [] then []
    else (if IsBetRef(tokens[0]) then [] else [tokens[0]]) + WithoutRefs(tokens[1..])
  }

  function Tokens(text: string): seq<string> {
    WithoutRefs(Words(StripMention(text)))
  }

  function Join(tokens: seq<string>): string {
    if tokens == [] then ""
    else if |tokens| == 1 then tokens[0]
    else tokens[0] + " " + Join(tokens[1..])
  }

  /***** The two strategies *****/

  /** Strategy A: the amount is the last token or the last two. */
  function Spaced(tokens: seq<string>): Option<Bet> {
    var n := |tokens|;
    if n < 2 then None
    else
      var two := if n >= 3 then LpAmount(tokens[n - 2] + tokens[n - 1]) else None;
      if two.Some? then Some(Bet(Join(tokens[..n - 2]), two.value))
      else
        var one := LpAmount(tokens[n - 1]);
        if one.Some? then Some(Bet(Join(tokens[..n - 1]), one.value)) else None
  }

  /** The body is this option with an amount glued to it. */
  predicate Fits(option: string, body: string) {
    option != "" && option <= body && LpAmount(body[|option|..]).Some?
  }

  /** The gate of strategy B: lp in any case, and nothing but whitespace after it. */
  predicate LpAtEnd(body: string) {
    var t := TrimEnd(body);
    |t| >= 2 && Lower(t[|t| - 2]) == 'l' && Lower(t[|t| - 1]) == 'p'
  }

  /** Longest first, equal lengths in their given order. */
  function ByLength(options: seq<string>): seq<string> {
    if options == [] then [] else Insert(ByLength(options[..|options| - 1]), options[|options| - 1])
  }

  function Insert(sorted: seq<string>, o: string): seq<string> {
    if sorted == [] then [o]
    else if |sorted[0]| >= |o| then [sorted[0]] + Insert(sorted[1..], o)
    else [o] + sorted
  }

  function FirstFit(options: seq<string>, body: string): Option<Bet> {
    if options == [] then None
    else if Fits(options[0], body) then Some(Bet(options[0], LpAmount(body[|options[0]|..]).value))
    else FirstFit(options[1..], body)
  }

  /** Strategy B: an option with an amount glued to it. */
  function Glued(tokens: seq<string>, options: seq<string>): Option<Bet> {
    if LpAtEnd(Join(tokens)) then FirstFit(ByLength(options), Join(tokens)) else None
  }

  function Parse(text: string, options: seq<string>): Option<Bet> {
    var spaced := Spaced(Tokens(text));
    if spaced.Some? then spaced else Glued(Tokens(text), options)
  }

  method ParseSpaced(tokens: seq<string>) returns (r: Option<Bet>)
    ensures r == Spaced(tokens)
  {
    hide LpAmount, Join;
    var n := |tokens|;
    if n >= 2 {
      if n >= 3 {
        var two := LpAmount(tokens[n - 2] + tokens[n - 1]);
        if two.Some? {
          return Some(Bet(Join(tokens[..n - 2]), two.value));
        }
      }
      var one := LpAmount(tokens[n - 1]);
      if one.Some? {
        return Some(Bet(Join(tokens[..n - 1]), one.value));
      }
    }
    return None;
  }

  /** parsePredictBetInput. */
  method ParsePredictBetInput(text: string, options: seq<string>) returns (r: Option<Bet>)
    ensures r == Parse(text, options)
  {
    var tokens := Tokens(text);
    r := ParseSpaced(tokens);
    if r.Some? {
      return;
    }
    var body := Join(tokens);
    if LpAtEnd(body) {
      r := SearchOptions(ByLength(options), body);
      return;
    }
    return None;
  }

  method SearchOptions(opts: seq<string>, body: string) returns (r: Option<Bet>)
    ensures r == FirstFit(opts, body)
  {
    assert opts[0..] == opts;
    for i := 0 to |opts|
      invariant FirstFit(opts, body) == FirstFit(opts[i..], body)
    {
      if opts[i] != "" && opts[i] <= body {
        var lp := LpAmount(body[|opts[i]|..]);
        if lp.Some? {
          return Some(Bet(opts[i], lp.value));
        }
      }
      assert opts[i..][1..] == opts[i + 1..];
    }
    return None;
  }

  /***** Reading words back *****/

  /** A piece of text without whitespace. */
  predicate IsWord(s: string) {
    s != [] && forall i :: 0 <= i < |s| ==> !IsSpace(s[i])
  }

  predicate AllWords(ws: seq<string>) {
    forall i :: 0 <= i < |ws| ==> IsWord(ws[i])
  }

  lemma {:induction false} WordLengthOf(w: string, rest: string)
    requires IsWord(w) && (rest == [] || IsSpace(rest[0]))
    ensures WordLength(w + rest) == |w|
  {
    assert (w + rest)[1..] == w[1..] + rest;
    if |w| > 1 {
      WordLengthOf(w[1..], rest);
    } else {
      assert w[1..] + rest == rest;
    }
  }

  lemma {:induction false} WordsOfJoin(ws: seq<string>)
    requires AllWords(ws)
    ensures Words(Join(ws)) == ws
  {
    if |ws| == 1 {
      WordLengthOf(ws[0], []);
      assert ws[0] + [] == ws[0] && ws[0][..|ws[0]|] == ws[0];
      assert Words(ws[0][|ws[0]|..]) == [];
    } else if |ws| > 1 {
      var rest := " " + Join(ws[1..]);
      var s := ws[0] + rest;
      assert s == Join(ws);
      WordLengthOf(ws[0], rest);
      assert s[0] == ws[0][0] && s[..|ws[0]|] == ws[0] && s[|ws[0]|..] == rest;
      assert rest[1..] == Join(ws[1..]);
      WordsOfJoin(ws[1..]);
      assert Words(rest) == ws[1..];
    }
  }

  predicate NoRefs(ws: seq<string>) {
    forall i :: 0 <= i < |ws| ==> !IsBetRef(ws[i])
  }

  lemma {:induction false} NoRefsStay(ws: seq<string>)
    requires NoRefs(ws)
    ensures WithoutRefs(ws) == ws
  {
    if ws != [] {
      NoRefsStay(ws[1..]);
    }
  }

  predicate AllBlank(s: string) {
    forall i :: 0 <= i < |s| ==> IsSpace(s[i])
  }

  lemma {:induction false} SpaceLengthOf(blanks: string, rest: string)
    requires AllBlank(blanks) && (rest == "" || !IsSpace(rest[0]))
    ensures SpaceLength(blanks + rest) == |blanks|
  {
    if blanks == "" {
      assert blanks + rest == rest;
    } else {
      assert (blanks + rest)[1..] == blanks[1..] + rest;
      SpaceLengthOf(blanks[1..], rest);
    }
  }

  /** A mention with the blanks after it is dropped from the front of a message exactly if it names somebody and there
      are such blanks. */
  lemma MentionDropped(agent: string, blanks: string, rest: string)
    requires (forall i :: 0 <= i < |agent| ==> !IsSpace(agent[i])) && AllBlank(blanks)
    requires rest == "" || (!IsSpace(rest[0]) && blanks != "")
    ensures var s := "@" + agent + blanks + rest;
      StripMention(s) == if agent != "" && blanks != "" then rest else s
  {
    var s := "@" + agent + blanks + rest;
    var after := blanks + rest;
    assert s[1..] == agent + after;
    if agent == "" {
      assert agent + after == after;
      assert after == "" || IsSpace(after[0]);
    } else {
      WordLengthOf(agent, after);
    }
    assert s[1 + |agent|..] == after;
    SpaceLengthOf(blanks, rest);
    assert s[1 + |agent| + |blanks|..] == rest;
  }

  /** A token names a proposal exactly if it is BET- in any case and one digit or more. */
  lemma BetRefIff(t: string)
    ensures IsBetRef(t)
       <==> && |t| >= 5 && t[0] in "bB" && t[1] in "eE" && t[2] in "tT" && t[3] == '-'
            && forall i :: 4 <= i < |t| ==> t[i] in "0123456789"
  {
    if |t| >= 5 {
      SqueezeFour(t[..4]);
      assert forall i :: 4 <= i < |t| ==> t[i] == t[4..][i - 4];
      forall i | 0 <= i < |t[4..]| ensures IsDigit(t[4..][i]) <==> t[i + 4] in "0123456789" {
        DigitIff(t[i + 4]);
      }
      assert t[4..] != "";
    }
  }

  lemma DigitIff(c: char)
    ensures IsDigit(c) <==> c in "0123456789"
  {
  }

  /** Nothing is squeezed out exactly if there is no blank. */
  lemma {:induction false} SqueezeKeeps(s: string)
    ensures |Squeeze(s)| <= |s|
    ensures |Squeeze(s)| == |s| <==> forall i :: 0 <= i < |s| ==> !IsSpace(s[i])
    ensures |Squeeze(s)| == |s| ==> forall i :: 0 <= i < |s| ==> Squeeze(s)[i] == Lower(s[i])
  {
    hide IsSpace, Lower;
    if s != [] {
      SqueezeKeeps(s[1..]);
      assert forall i :: 0 < i < |s| ==> s[i] == s[1..][i - 1];
    }
  }

  lemma SameLetter(c: char)
    ensures !IsSpace(c) && Lower(c) == 'b' <==> c in "bB"
    ensures !IsSpace(c) && Lower(c) == 'e' <==> c in "eE"
    ensures !IsSpace(c) && Lower(c) == 't' <==> c in "tT"
    ensures !IsSpace(c) && Lower(c) == '-' <==> c == '-'
  {
  }

  lemma SqueezeFour(s: string)
    requires |s| == 4
    ensures Squeeze(s) == "bet-" <==> s[0] in "bB" && s[1] in "eE" && s[2] in "tT" && s[3] == '-'
  {
    hide IsSpace, Lower, Squeeze;
    SqueezeKeeps(s);
    SameLetter(s[0]);
    SameLetter(s[1]);
    SameLetter(s[2]);
    SameLetter(s[3]);
    var letters := s[0] in "bB" && s[1] in "eE" && s[2] in "tT" && s[3] == '-';
    if letters {
      assert forall i :: 0 <= i < 4 ==> !IsSpace(s[i]);
      assert Squeeze(s) == [Squeeze(s)[0], Squeeze(s)[1], Squeeze(s)[2], Squeeze(s)[3]];
    }
  }

  /** A reply in the form the post asks for reads as its words. */
  lemma TokensOfReply(agent: string, ws: seq<string>)
    requires IsWord(agent) && ws != [] && AllWords(ws) && NoRefs(ws)
    ensures Tokens("@" + agent + " " + Join(ws)) == ws
  {
    var body := Join(ws);
    var s := "@" + agent + " " + body;
    assert s[0] == '@' && s[1..] == agent + (" " + body);
    WordLengthOf(agent, " " + body);
    var after := s[1 + |agent|..];
    assert after == " " + body;
    assert body[0] == ws[0][0];
    assert SpaceLength(after) == 1 by {
      assert after[0] == ' ' && after[1] == body[0] && !IsSpace(body[0]);
    }
    assert s[1 + |agent| + 1..] == body;
    WordsOfJoin(ws);
    NoRefsStay(ws);
  }

  /***** Reading amounts back *****/

  lemma {:induction false} SqueezeOfTwo(a: string, b: string)
    ensures Squeeze(a + b) == Squeeze(a) + Squeeze(b)
  {
    if a == [] {
      assert a + b == b;
    } else {
      assert (a + b)[1..] == a[1..] + b;
      SqueezeOfTwo(a[1..], b);
    }
  }

  predicate Plain(s: string) {
    forall i :: 0 <= i < |s| ==> IsDigit(s[i]) || s[i] == '.'
  }

  lemma {:induction false} PlainStays(s: string)
    requires Plain(s)
    ensures Squeeze(s) == s
  {
    if s != [] {
      PlainStays(s[1..]);
    }
  }

  lemma NumeralIsPlain(s: string)
    requires Numeral(s).Some?
    ensures Plain(s) && s != []
  {
    var p := Point(s);
    if p < |s| {
      forall i | 0 <= i < |s| ensures IsDigit(s[i]) || s[i] == '.' {
        if i < p {
          assert s[..p][i] == s[i];
        } else if i > p {
          assert s[p + 1..][i - p - 1] == s[i];
        }
      }
    }
  }

  /** `a` is an amount somebody can bet. */
  predicate IsAmount(a: string) {
    Numeral(a).Some? && Numeral(a).value.units > 0
  }

  lemma LpReadsBack(a: string)
    requires IsAmount(a)
    ensures LpAmount(a + "LP") == Numeral(a)
  {
    NumeralIsPlain(a);
    PlainStays(a);
    SqueezeOfTwo(a, "LP");
    SqueezeLp();
    LpStripped(a);
  }

  lemma {:induction false} PointOfDigits(s: string, rest: string)
    requires OnlyDigits(s) && (rest == "" || rest[0] == '.')
    ensures Point(s + rest) == |s|
  {
    if s == "" {
      assert s + rest == rest;
    } else {
      assert (s + rest)[1..] == s[1..] + rest;
      PointOfDigits(s[1..], rest);
    }
  }

  /** What a written amount is worth: a whole number of LP, or whole LP and a fraction of any number of decimals. */
  lemma AmountIsWorth(whole: nat, fraction: nat, decimals: nat)
    requires fraction < Power10(decimals)
    ensures Numeral(Print(whole)) == Some(Decimal(whole, 0))
    ensures decimals > 0 ==>
              Numeral(Print(whole) + "." + Padded(fraction, decimals))
              == Some(Decimal(whole * Power10(decimals) + fraction, decimals))
  {
    hide Print, Padded, Point, Number, OnlyDigits;
    var w, f := Print(whole), Padded(fraction, decimals);
    PrintsDigits(whole);
    PointOfDigits(w, "");
    assert w + "" == w;
    PaddedIsDigits(fraction, decimals);
    PaddedAfter(w, fraction, decimals);
    PointOfDigits(w, "." + f);
    var s := w + "." + f;
    assert s == w + ("." + f) && s[..|w|] == w && s[|w| + 1..] == f;
  }

  lemma LpStripped(s: string)
    ensures EndsInLp(s + "lp") && (s + "lp")[..|s + "lp"| - 2] == s
  {
    assert (s + "lp")[|s + "lp"| - 2..] == "lp";
  }

  lemma AmountIsWord(a: string)
    requires IsAmount(a)
    ensures IsWord(a) && IsWord(a + "LP") && !IsBetRef(a) && !IsBetRef(a + "LP")
  {
    NumeralIsPlain(a);
    NotARef(a);
    NotARef(a + "LP");
  }

  lemma SqueezeLp()
    ensures Squeeze("LP") == "lp"
  {
    assert "LP"[1..] == "P" && "P"[1..] == "";
  }

  lemma NotARef(t: string)
    requires t != [] && (IsDigit(t[0]) || t[0] == '.')
    ensures !IsBetRef(t)
  {
    if |t| > 4 {
      assert Squeeze(t[..4])[0] == t[0];
    }
  }

  /***** Reading bets back *****/

  /** `@agent option 5 LP` is read back, whatever the options are and whatever the option's words. */
  lemma SpacedFormReadsBack(agent: string, option: seq<string>, a: string, options: seq<string>)
    requires IsWord(agent) && option != [] && AllWords(option) && NoRefs(option)
    requires IsAmount(a)
    ensures Parse("@" + agent + " " + Join(option + [a, "LP"]), options) == Some(Bet(Join(option), Numeral(a).value))
  {
    LpReadsBack(a);
    AmountIsWord(a);
    var ws := option + [a, "LP"];
    assert AllWords(ws) && NoRefs(ws);
    TokensOfReply(agent, ws);
    assert ws[..|ws| - 2] == option;
  }

  /** `@agent option 5LP`, the form of the post's example, is read back exactly if the option is one word or its
      last word does not run together with the amount into another amount. */
  lemma ExampleFormReadsBack(agent: string, option: seq<string>, a: string, options: seq<string>)
    requires IsWord(agent) && option != [] && AllWords(option) && NoRefs(option)
    requires IsAmount(a)
    ensures Parse("@" + agent + " " + Join(option + [a + "LP"]), options) == Some(Bet(Join(option), Numeral(a).value))
       <==> |option| == 1 || LpAmount(option[|option| - 1] + (a + "LP")).None?
  {
    LpReadsBack(a);
    AmountIsWord(a);
    var ws := option + [a + "LP"];
    assert AllWords(ws) && NoRefs(ws);
    TokensOfReply(agent, ws);
    SpacedExample(option, a + "LP", Numeral(a).value);
  }

  lemma SpacedExample(option: seq<string>, last: string, amount: Decimal)
    requires option != [] && AllWords(option) && LpAmount(last) == Some(amount)
    ensures var r := Spaced(option + [last]);
      && r.Some?
      && (r.value == Bet(Join(option), amount)
          <==> |option| == 1 || LpAmount(option[|option| - 1] + last).None?)
  {
    hide LpAmount, Join, AllWords;
    var ws := option + [last];
    var n := |ws|;
    assert ws[..n - 1] == option;
    if n >= 3 {
      assert ws[..n - 2] == option[..|option| - 1];
      JoinGrows(option);
    }
  }

  lemma {:induction false} JoinGrows(ws: seq<string>)
    requires |ws| > 1 && AllWords(ws)
    ensures |Join(ws[..|ws| - 1])| < |Join(ws)|
  {
    if |ws| == 2 {
      assert Join(ws[..1]) == ws[0];
    } else {
      JoinGrows(ws[1..]);
      assert ws[..|ws| - 1][1..] == ws[1..][..|ws| - 2];
    }
  }

  /** What happens otherwise: the option loses its last word to the amount. */
  lemma NumberedOptionMisread(agent: string, option: seq<string>, w: string, a: string, options: seq<string>)
    requires IsWord(agent) && option != [] && AllWords(option) && NoRefs(option)
    requires IsWord(w) && !IsBetRef(w) && IsAmount(a) && IsAmount(w + a)
    ensures Parse("@" + agent + " " + Join(option + [w, a + "LP"]), options)
         == Some(Bet(Join(option), Numeral(w + a).value))
  {
    AmountIsWord(a);
    LpReadsBack(w + a);
    assert (w + a) + "LP" == w + (a + "LP");
    var ws := option + [w, a + "LP"];
    assert AllWords(ws) && NoRefs(ws);
    TokensOfReply(agent, ws);
    assert ws[..|ws| - 2] == option;
  }

  /** For instance 5 LP on option "A 2" becomes 25 LP on "A". */
  lemma TwentyFiveOnA(options: seq<string>)
    ensures Parse("@" + "bot" + " " + Join(["A", "2", "5LP"]), options) == Some(Bet("A", Decimal(25, 0)))
  {
    TwentyFive();
    assert "2" + "5" == "25" && "5" + "LP" == "5LP" && ["A"] + ["2", "5LP"] == ["A", "2", "5LP"];
    NumberedOptionMisread("bot", ["A"], "2", "5", options);
  }

  lemma TwentyFive()
    ensures Numeral("25") == Some(Decimal(25, 0)) && Numeral("5") == Some(Decimal(5, 0)) && !IsBetRef("2")
  {
    assert "5"[..0] == "";
    assert "25"[..1] == "2" && "2"[..0] == "";
    assert Number("2") == 2;
    assert "25"[1..] == "5" && "5"[1..] == "";
    assert Point("5") == 1;
    assert Point("25") == 2;
  }

  /***** The glued form *****/

  lemma {:induction false} InsertFacts(sorted: seq<string>, o: string)
    requires forall i, j :: 0 <= i < j < |sorted| ==> |sorted[i]| >= |sorted[j]|
    ensures forall i, j :: 0 <= i < j < |Insert(sorted, o)| ==> |Insert(sorted, o)[i]| >= |Insert(sorted, o)[j]|
    ensures forall x :: x in Insert(sorted, o) <==> x == o || x in sorted
  {
    if sorted != [] {
      var rest := sorted[1..];
      assert forall x :: x in sorted <==> x == sorted[0] || x in rest;
      if |sorted[0]| >= |o| {
        InsertFacts(rest, o);
        var r := Insert(rest, o);
        assert forall x :: x in [sorted[0]] + r <==> x == sorted[0] || x in r;
        forall j | 0 <= j < |r| ensures |sorted[0]| >= |r[j]| {
          assert r[j] in r;
        }
      } else {
        assert forall x :: x in [o] + sorted <==> x == o || x in sorted;
      }
    }
  }

  lemma {:induction false} ByLengthFacts(options: seq<string>)
    ensures forall i, j :: 0 <= i < j < |ByLength(options)| ==> |ByLength(options)[i]| >= |ByLength(options)[j]|
    ensures forall x :: x in ByLength(options) <==> x in options
  {
    if options != [] {
      var n := |options| - 1;
      ByLengthFacts(options[..n]);
      InsertFacts(ByLength(options[..n]), options[n]);
      assert options == options[..n] + [options[n]];
    }
  }

  lemma {:induction false} FirstFitFacts(opts: seq<string>, body: string)
    requires forall i, j :: 0 <= i < j < |opts| ==> |opts[i]| >= |opts[j]|
    ensures FirstFit(opts, body).None? <==> forall o :: o in opts ==> !Fits(o, body)
    ensures FirstFit(opts, body).Some? ==>
              var bet := FirstFit(opts, body).value;
              && bet.option in opts && Fits(bet.option, body) && LpAmount(body[|bet.option|..]) == Some(bet.amount)
              && forall o :: o in opts && Fits(o, body) ==> |o| <= |bet.option|
  {
    if opts != [] {
      var rest := opts[1..];
      assert forall o :: o in opts <==> o == opts[0] || o in rest;
      if Fits(opts[0], body) {
        forall o | o in opts ensures |o| <= |opts[0]| {
          var i :| 0 <= i < |opts| && opts[i] == o;
        }
      } else {
        FirstFitFacts(rest, body);
      }
    }
  }

  /** A message that does not end in a spaced amount is a bet exactly if it ends in lp and some option with an amount
      makes it up; of several, the longest option is meant. */
  lemma LongestOptionWins(text: string, options: seq<string>)
    requires Spaced(Tokens(text)).None?
    ensures var r, body := Parse(text, options), Join(Tokens(text));
      && (r.None? <==> !LpAtEnd(body) || forall o :: o in options ==> !Fits(o, body))
      && (r.Some? ==>
           && r.value.option in options && Fits(r.value.option, body)
           && LpAmount(body[|r.value.option|..]) == Some(r.value.amount)
           && forall o :: o in options && Fits(o, body) ==> |o| <= |r.value.option|)
  {
    hide Spaced, Tokens, Join, LpAmount, LpAtEnd, Fits;
    ByLengthFacts(options);
    FirstFitFacts(ByLength(options), Join(Tokens(text)));
  }

  /** The words of an option with something glued to the last. */
  function GluedWords(option: seq<string>, tail: string): seq<string>
    requires option != []
  {
    option[..|option| - 1] + [option[|option| - 1] + tail]
  }

  lemma {:induction false} JoinOfGlued(option: seq<string>, tail: string)
    requires option != []
    ensures Join(GluedWords(option, tail)) == Join(option) + tail
  {
    if |option| > 1 {
      JoinOfGlued(option[1..], tail);
      assert GluedWords(option, tail)[1..] == GluedWords(option[1..], tail);
    }
  }

  /** A spaced amount at the end leaves less than the option. */
  lemma SpacedIsShorter(option: seq<string>, tail: string)
    requires option != [] && AllWords(option) && Spaced(GluedWords(option, tail)).Some?
    ensures |Spaced(GluedWords(option, tail)).value.option| < |Join(option)|
  {
    hide LpAmount, Join;
    var n, ws := |option|, GluedWords(option, tail);
    assert ws[..n - 1] == option[..n - 1];
    JoinGrows(option);
    if n >= 3 {
      JoinGrows(option[..n - 1]);
      assert option[..n - 1][..n - 2] == option[..n - 2] == ws[..n - 2];
    }
  }

  /** `@agent option5LP` is read back, for an option of any number of words, exactly if the last words do not make up an
      amount of their own and no longer option also makes up the text. */
  lemma GluedFormReadsBack(agent: string, option: seq<string>, a: string, options: seq<string>)
    requires IsWord(agent) && option != [] && AllWords(option) && IsAmount(a)
    requires Join(option) in options && NoRefs(GluedWords(option, a + "LP"))
    ensures var body := Join(option) + (a + "LP");
      Parse("@" + agent + " " + body, options) == Some(Bet(Join(option), Numeral(a).value))
      <==> Spaced(GluedWords(option, a + "LP")).None?
           && forall o :: o in options && Fits(o, body) ==> |o| <= |Join(option)|
  {
    hide Spaced, Fits, LpAtEnd, Numeral, LpAmount, Join;
    var ws, body := GluedWords(option, a + "LP"), Join(option) + (a + "LP");
    NonEmptyJoin(option);
    GluedText(Join(option), a);
    AmountIsWord(a);
    JoinOfGlued(option, a + "LP");
    TokensOfReply(agent, ws);
    if Spaced(ws).Some? {
      SpacedIsShorter(option, a + "LP");
    } else {
      LongestOptionWins("@" + agent + " " + body, options);
      var r := Parse("@" + agent + " " + body, options);
      if r.Some? && |r.value.option| == |Join(option)| {
        FitsStart(r.value.option, body);
      }
    }
  }

  lemma NonEmptyJoin(ws: seq<string>)
    requires ws != [] && AllWords(ws)
    ensures Join(ws) != ""
  {
  }

  lemma FitsStart(option: string, body: string)
    requires Fits(option, body)
    ensures option == body[..|option|]
  {
  }

  lemma GluedText(option: string, a: string)
    requires option != "" && IsAmount(a)
    ensures var t := option + (a + "LP");
      LpAtEnd(t) && Fits(option, t) && LpAmount(t[|option|..]) == Numeral(a) && t[..|option|] == option
  {
    var t := option + (a + "LP");
    LpReadsBack(a);
    assert t[|option|..] == a + "LP" && option <= t;
    LpEnds(option + a);
    assert (option + a) + "LP" == t;
  }

  lemma LpEnds(s: string)
    ensures LpAtEnd(s + "LP")
  {
    assert TrimEnd(s + "LP") == s + "LP";
  }

  /** Whatever the message and the options, a bet that is read has a positive amount, and an option that was
      either written out before the amount or is one of the proposal's. */
  lemma AmountsArePositive(text: string, options: seq<string>)
    requires Parse(text, options).Some?
    ensures Parse(text, options).value.amount.units > 0
    ensures Parse(text, options) == Spaced(Tokens(text)) || Parse(text, options).value.option in options
  {
    if Spaced(Tokens(text)).None? {
      ByLengthFacts(options);
      FirstFitFacts(ByLength(options), Join(Tokens(text)));
    }
  }
}
