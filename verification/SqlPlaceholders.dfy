/** `$N` placeholders rewritten to positional `?` for SQLite, keeping what every statement means.
    Text is read character by character; neither the program nor this model lexes quoted strings. */
module SqlPlaceholders {
  import opened Text

  datatype Bind<T> = Value(v: T) | Undefined

  /** A statement with its parameters filled in: plain characters and bound values. */
  datatype Piece<T> = Ch(c: char) | Val(b: Bind<T>) | Unbound

  predicate IsWord(c: char) {
    IsDigit(c) || 'a' <= c <= 'z' || 'A' <= c <= 'Z' || c == '_'
  }

  /** Length of the longest run of digits `s` starts with. */
  function DigitRun(s: string): (n: nat)
    ensures n <= |s| && (forall i :: 0 <= i < n ==> IsDigit(s[i])) && (n < |s| ==> !IsDigit(s[n]))
  {
    if s == "" || !IsDigit(s[0]) then 0 else 1 + DigitRun(s[1..])
  }

  /** params[n - 1], which is undefined for an index outside the list. */
  function Param<T>(params: seq<T>, n: nat): Bind<T> {
    if 1 <= n <= |params| then Value(params[n - 1]) else Undefined
  }

  /** Number of characters of the placeholder `s` starts with; 0 if it starts with none. */
  function PlaceholderLength(s: string): (n: nat)
    ensures n <= |s| && n != 1
  {
    if s == "" || s[0] != '$' || DigitRun(s[1..]) == 0 then 0 else 1 + DigitRun(s[1..])
  }

  function Referenced<T>(params: seq<T>, s: string): Bind<T>
    requires PlaceholderLength(s) > 0
  {
    Param(params, Number(s[1..PlaceholderLength(s)]))
  }

  /** The statement the caller wrote: every `$N` stands for the N-th parameter. */
  function FillDollar<T>(s: string, params: seq<T>): seq<Piece<T>>
    decreases |s|
  {
    var n := PlaceholderLength(s);
    if s == "" then []
    else if n > 0 then [Val(Referenced(params, s))] + FillDollar(s[n..], params)
    else [Ch(s[0])] + FillDollar(s[1..], params)
  }

  /** The statement SQLite runs: the i-th `?` from the left stands for the i-th expanded value. */
  function FillQuestion<T>(s: string, expanded: seq<Bind<T>>): seq<Piece<T>>
    decreases |s|
  {
    if s == "" then []
    else if s[0] != '?' then [Ch(s[0])] + FillQuestion(s[1..], expanded)
    else if expanded == [] then [Unbound] + FillQuestion(s[1..], [])
    else [Val(expanded[0])] + FillQuestion(s[1..], expanded[1..])
  }

  datatype Translated<T> = Translated(text: string, expanded: seq<Bind<T>>)

  function Translate<T>(s: string, params: seq<T>): Translated<T>
    decreases |s|
  {
    var n := PlaceholderLength(s);
    if s == "" then Translated("", [])
    else if n > 0 then
      var rest := Translate(s[n..], params);
      Translated("?" + rest.text, [Referenced(params, s)] + rest.expanded)
    else
      var rest := Translate(s[1..], params);
      Translated([s[0]] + rest.text, rest.expanded)
  }

  /***** ILIKE becomes LIKE *****/

  function Upper(c: char): char {
    if 'a' <= c <= 'z' then 'A' + (c - 'a') else c
  }

  /** `s` starts with the whole word ILIKE in any case, given whether a word character precedes it. */
  predicate StartsIlike(afterWord: bool, s: string) {
    && !afterWord && |s| >= 5
    && Upper(s[0]) == 'I' && Upper(s[1]) == 'L' && Upper(s[2]) == 'I' && Upper(s[3]) == 'K' && Upper(s[4]) == 'E'
    && (|s| > 5 ==> !IsWord(s[5]))
  }

  function Downgrade(afterWord: bool, s: string): string
    decreases |s|
  {
    if s == "" then ""
    else if StartsIlike(afterWord, s) then "LIKE" + Downgrade(true, s[5..])
    else [s[0]] + Downgrade(IsWord(s[0]), s[1..])
  }

  /** The same downgrade on a filled statement, where a bound value ends like a word but does not start one. */
  predicate PiecesStartIlike<T>(afterWord: bool, ps: seq<Piece<T>>) {
    && !afterWord && |ps| >= 5
    && (forall i :: 0 <= i < 5 ==> ps[i].Ch?)
    && StartsIlike(false, [ps[0].c, ps[1].c, ps[2].c, ps[3].c, ps[4].c])
    && (|ps| > 5 && ps[5].Ch? ==> !IsWord(ps[5].c))
  }

  function DowngradePieces<T>(afterWord: bool, ps: seq<Piece<T>>): seq<Piece<T>>
    decreases |ps|
  {
    if ps == [] then []
    else if PiecesStartIlike(afterWord, ps)
    then [Ch('L'), Ch('I'), Ch('K'), Ch('E')] + DowngradePieces(true, ps[5..])
    else [ps[0]] + DowngradePieces(if ps[0].Ch? then IsWord(ps[0].c) else true, ps[1..])
  }

  /** One round of the replacement: what is emitted for the front of `s`, and how much of `s` it covers. */
  function Emit<T>(s: string, params: seq<T>): (e: (string, seq<Bind<T>>, nat))
    requires s != ""
    ensures 0 < e.2 <= |s|
    ensures var rest := Translate(s[e.2..], params);
            Translate(s, params) == Translated(e.0 + rest.text, e.1 + rest.expanded)
  {
    var n := PlaceholderLength(s);
    if n > 0 then ("?", [Referenced(params, s)], n) else ([s[0]], [], 1)
  }

  lemma Associative<T>(a: seq<T>, b: seq<T>, c: seq<T>)
    ensures (a + b) + c == a + (b + c)
  {
  }

  /** The replacement as the program performs it: one pass, pushing onto `expanded` as it goes. */
  method TranslateStatement<T>(sql: string, params: seq<T>) returns (text: string, expanded: seq<Bind<T>>)
    ensures Translated(text, expanded) == Translate(Downgrade(false, sql), params)
  {
    var source := Downgrade(false, sql);
    text, expanded := "", [];
    var rest := source;
    while rest != ""
      invariant var t := Translate(rest, params);
                Translate(source, params) == Translated(text + t.text, expanded + t.expanded)
      decreases |rest|
    {
      var (piece, values, taken) := Emit(rest, params);
      ghost var t := Translate(rest[taken..], params);
      Associative(text, piece, t.text);
      Associative(expanded, values, t.expanded);
      text, expanded := text + piece, expanded + values;
      rest := rest[taken..];
    }
  }

  function QuestionMarks(s: string): nat {
    if s == "" then 0 else (if s[0] == '?' then 1 else 0) + QuestionMarks(s[1..])
  }

  /** Filling the translated text left to right from the expanded values gives what filling every `$N` of
      the original from the parameters gives, with ILIKE read as LIKE, for every statement and every
      parameter list, indices out of range included, precisely when the original has no literal `?`. */
  lemma TranslationPreservesMeaning<T>(sql: string, params: seq<T>)
    ensures var t := Translate(Downgrade(false, sql), params);
            FillQuestion(t.text, t.expanded) == DowngradePieces(false, FillDollar(sql, params)) <==> '?' !in sql
    ensures var t := Translate(Downgrade(false, sql), params);
            '?' !in sql ==> QuestionMarks(t.text) == |t.expanded|
  {
    var d := Downgrade(false, sql);
    var t := Translate(d, params);
    DowngradeCommutes(false, sql, params);
    DowngradeKeepsQuestionMarks(false, sql);
    if '?' in sql {
      QuestionMarkSurvives(d, params);
      FillConsumesQuestionMarks(t.text, t.expanded);
    } else {
      TranslateThenFill(d, params);
    }
  }

  lemma {:induction false} TranslateThenFill<T>(s: string, params: seq<T>)
    requires '?' !in s
    ensures var t := Translate(s, params);
            FillQuestion(t.text, t.expanded) == FillDollar(s, params) && QuestionMarks(t.text) == |t.expanded|
    decreases |s|
  {
    var n := PlaceholderLength(s);
    if s != "" {
      var k := if n > 0 then n else 1;
      assert '?' !in s[k..];
      TranslateThenFill(s[k..], params);
      var t, rest := Translate(s, params), Translate(s[k..], params);
      assert t.text[1..] == rest.text;
    }
  }

  lemma {:induction false} FillConsumesQuestionMarks<T>(s: string, expanded: seq<Bind<T>>)
    ensures Ch('?') !in FillQuestion(s, expanded)
    decreases |s|
  {
    if s != "" {
      FillConsumesQuestionMarks(s[1..], if s[0] != '?' || expanded == [] then expanded else expanded[1..]);
    }
  }

  lemma {:induction false} QuestionMarkSurvives<T>(s: string, params: seq<T>)
    requires '?' in s
    ensures Ch('?') in FillDollar(s, params)
    decreases |s|
  {
    var n := PlaceholderLength(s);
    if s[0] != '?' {
      var k := if n > 0 then n else 1;
      var i :| 0 <= i < |s| && s[i] == '?';
      assert i >= k;
      assert s[k..][i - k] == '?';
      QuestionMarkSurvives(s[k..], params);
    }
  }

  lemma {:induction false} DowngradeKeepsQuestionMarks(afterWord: bool, s: string)
    ensures '?' in Downgrade(afterWord, s) <==> '?' in s
    decreases |s|
  {
    if s != "" {
      if StartsIlike(afterWord, s) {
        DowngradeKeepsQuestionMarks(true, s[5..]);
        assert s == s[..5] + s[5..];
        assert '?' !in s[..5];
      } else {
        DowngradeKeepsQuestionMarks(IsWord(s[0]), s[1..]);
      }
    }
  }

  /** The downgrade neither creates nor destroys a placeholder, whatever stands next to ILIKE. */
  lemma {:induction false} DowngradeCommutes<T>(afterWord: bool, s: string, params: seq<T>)
    ensures FillDollar(Downgrade(afterWord, s), params) == DowngradePieces(afterWord, FillDollar(s, params))
    decreases |s|
  {
    if s == "" {
    } else if PlaceholderLength(s) > 0 {
      DowngradeCommutes(true, s[PlaceholderLength(s)..], params);
      CommutesAtPlaceholder(afterWord, s, params);
    } else if StartsIlike(afterWord, s) {
      DowngradeCommutes(true, s[5..], params);
      CommutesAtIlike(afterWord, s, params);
    } else {
      DowngradeCommutes(IsWord(s[0]), s[1..], params);
      CommutesAtPlainChar(afterWord, s, params);
    }
  }

  lemma CommutesAtPlaceholder<T>(afterWord: bool, s: string, params: seq<T>)
    requires PlaceholderLength(s) > 0
    requires var rest := s[PlaceholderLength(s)..];
             FillDollar(Downgrade(true, rest), params) == DowngradePieces(true, FillDollar(rest, params))
    ensures FillDollar(Downgrade(afterWord, s), params) == DowngradePieces(afterWord, FillDollar(s, params))
  {
    var n, d := PlaceholderLength(s), Downgrade(afterWord, s);
    DowngradeSkipsPlaceholder(afterWord, s);
    assert d[1..n] == s[1..n] && d[n..] == Downgrade(true, s[n..]);
    assert FillDollar(s, params)[1..] == FillDollar(s[n..], params);
  }

  lemma CommutesAtIlike<T>(afterWord: bool, s: string, params: seq<T>)
    requires StartsIlike(afterWord, s)
    requires FillDollar(Downgrade(true, s[5..]), params) == DowngradePieces(true, FillDollar(s[5..], params))
    ensures FillDollar(Downgrade(afterWord, s), params) == DowngradePieces(afterWord, FillDollar(s, params))
  {
    PlainPrefix(s, 5, params);
    var ps := FillDollar(s, params);
    assert ps[5..] == FillDollar(s[5..], params);
    assert PiecesStartIlike(afterWord, ps);
    LikeFirst(Downgrade(true, s[5..]), params);
  }

  lemma LikeFirst<T>(rest: string, params: seq<T>)
    ensures FillDollar("LIKE" + rest, params) == [Ch('L'), Ch('I'), Ch('K'), Ch('E')] + FillDollar(rest, params)
  {
    PlainPrefix("LIKE" + rest, 4, params);
    assert ("LIKE" + rest)[4..] == rest && ("LIKE" + rest)[..4] == "LIKE";
  }

  lemma CommutesAtPlainChar<T>(afterWord: bool, s: string, params: seq<T>)
    requires s != "" && PlaceholderLength(s) == 0 && !StartsIlike(afterWord, s)
    requires var w := IsWord(s[0]);
             FillDollar(Downgrade(w, s[1..]), params) == DowngradePieces(w, FillDollar(s[1..], params))
    ensures FillDollar(Downgrade(afterWord, s), params) == DowngradePieces(afterWord, FillDollar(s, params))
  {
    NoIlikeFromPieces(afterWord, s, params);
    DowngradeFirstChar(IsWord(s[0]), s[1..]);
    var d := Downgrade(afterWord, s);
    assert d[1..] == Downgrade(IsWord(s[0]), s[1..]);
    assert PlaceholderLength(d) == 0;
    assert FillDollar(s, params)[1..] == FillDollar(s[1..], params);
  }

  /** The first character is kept, or is the L of a LIKE that replaced the I of an ILIKE. */
  lemma DowngradeFirstChar(afterWord: bool, s: string)
    ensures var d := Downgrade(afterWord, s);
            (s == "" <==> d == "") && (s != "" ==> d[0] == s[0] || (!afterWord && d[0] == 'L' && Upper(s[0]) == 'I'))
  {
  }

  lemma NoIlikeAtDollar(afterWord: bool, s: string)
    requires s != "" && s[0] == '$'
    ensures !StartsIlike(afterWord, s) && !IsWord(s[0])
  {
  }

  lemma DowngradeSkipsPlaceholder(afterWord: bool, s: string)
    requires PlaceholderLength(s) > 0
    ensures var n := PlaceholderLength(s);
            var d := Downgrade(afterWord, s);
            d == s[..n] + Downgrade(true, s[n..]) && PlaceholderLength(d) == n
  {
    hide IsDigit, IsWord, StartsIlike;
    NoIlikeAtDollar(afterWord, s);
    var n := PlaceholderLength(s);
    var digits, rest := s[1..n], Downgrade(true, s[n..]);
    DowngradeSkipsDigits(false, s[1..], n - 1);
    assert s[1..][..n - 1] == digits && s[1..][n - 1..] == s[n..];
    assert Downgrade(afterWord, s) == [s[0]] + (digits + rest);
    assert s[..n] == [s[0]] + digits;
    Associative([s[0]], digits, rest);
    DowngradeFirstChar(true, s[n..]);
    DigitRunOfPrefix(digits, rest);
    assert ([s[0]] + (digits + rest))[1..] == digits + rest;
  }

  lemma {:induction false} DowngradeSkipsDigits(afterWord: bool, s: string, n: nat)
    requires n <= |s| && forall i :: 0 <= i < n ==> IsDigit(s[i])
    ensures Downgrade(afterWord, s) == s[..n] + Downgrade(if n > 0 then true else afterWord, s[n..])
    decreases n
  {
    if n > 0 {
      DowngradeSkipsDigits(true, s[1..], n - 1);
      var digits, rest := s[1..][..n - 1], Downgrade(true, s[n..]);
      assert s[1..][n - 1..] == s[n..];
      assert Downgrade(afterWord, s) == [s[0]] + (digits + rest);
      Associative([s[0]], digits, rest);
      assert [s[0]] + digits == s[..n];
    } else {
      assert s[0..] == s;
    }
  }

  lemma {:induction false} DigitRunOfPrefix(digits: string, rest: string)
    requires (forall i :: 0 <= i < |digits| ==> IsDigit(digits[i])) && (rest != "" ==> !IsDigit(rest[0]))
    ensures DigitRun(digits + rest) == |digits|
  {
    if digits != "" {
      DigitRunOfPrefix(digits[1..], rest);
      assert (digits + rest)[1..] == digits[1..] + rest;
    } else {
      assert digits + rest == rest;
    }
  }

  function AsPieces<T>(s: string): (ps: seq<Piece<T>>)
    ensures |ps| == |s| && forall i :: 0 <= i < |s| ==> ps[i] == Ch(s[i])
  {
    if s == "" then [] else [Ch(s[0])] + AsPieces(s[1..])
  }

  /** Characters other than `$` stand for themselves. */
  lemma {:induction false} PlainPrefix<T>(s: string, n: nat, params: seq<T>)
    requires n <= |s| && '$' !in s[..n]
    ensures FillDollar(s, params) == AsPieces(s[..n]) + FillDollar(s[n..], params)
    decreases n
  {
    if n > 0 {
      assert s[0] == s[..n][0];
      assert s[1..][..n - 1] == s[1..n] == s[..n][1..];
      PlainPrefix(s[1..], n - 1, params);
      assert s[1..][n - 1..] == s[n..];
      assert AsPieces<T>(s[..n]) == [Ch(s[0])] + AsPieces(s[1..][..n - 1]);
    } else {
      assert s[0..] == s;
    }
  }

  /** Pieces that spell ILIKE come from text that spells ILIKE. */
  lemma NoIlikeFromPieces<T>(afterWord: bool, s: string, params: seq<T>)
    ensures PiecesStartIlike(afterWord, FillDollar(s, params)) ==> StartsIlike(afterWord, s)
  {
    var ps := FillDollar(s, params);
    if PiecesStartIlike(afterWord, ps) {
      FrontPieces(s, 5, params);
      if |ps| > 5 {
        assert ps[5] == FillDollar(s[5..], params)[0];
      }
    }
  }

  lemma {:induction false} FrontPieces<T>(s: string, n: nat, params: seq<T>)
    requires var ps := FillDollar(s, params); n <= |ps| && forall i :: 0 <= i < n ==> ps[i].Ch?
    ensures n <= |s|
    ensures var ps := FillDollar(s, params);
            (forall i :: 0 <= i < n ==> ps[i] == Ch(s[i])) && ps[n..] == FillDollar(s[n..], params)
    decreases n
  {
    if n > 0 {
      var ps := FillDollar(s, params);
      assert ps[0].Ch?;
      assert ps[1..] == FillDollar(s[1..], params);
      FrontPieces(s[1..], n - 1, params);
      assert s[1..][n - 1..] == s[n..] && ps[1..][n - 1..] == ps[n..];
      assert forall i :: 0 < i < n ==> ps[i] == ps[1..][i - 1];
    } else {
      assert s[0..] == s;
    }
  }

  /***** What the text of a statement says *****/

  /** A statement as somebody writes it: text without dollars, and references to parameters. */
  datatype Part = Text(text: string) | Ref(zeros: nat, n: nat)

  function Written(part: Part): string {
    match part
    case Text(text) => text
    case Ref(zeros, n) => "$" + Zeros(zeros) + Print(n)
  }

  function Statement(parts: seq<Part>): string {
    if parts == [] then "" else Written(parts[0]) + Statement(parts[1..])
  }

  /** The n-th parameter, if there is one. */
  function Meant<T>(n: nat, params: seq<T>): Bind<T> {
    if n == 0 || n > |params| then Undefined else Value(params[n - 1])
  }

  /** What the parts mean, read off them one by one. */
  function Filled<T>(parts: seq<Part>, params: seq<T>): seq<Piece<T>> {
    if parts == [] then []
    else (match parts[0]
          case Text(text) => AsPieces(text)
          case Ref(_, n) => [Val(Meant(n, params))]) + Filled(parts[1..], params)
  }

  function Questioned(parts: seq<Part>): string {
    if parts == [] then "" else (if parts[0].Text? then parts[0].text else "?") + Questioned(parts[1..])
  }

  function Expanded<T>(parts: seq<Part>, params: seq<T>): seq<Bind<T>> {
    if parts == [] then []
    else (if parts[0].Text? then [] else [Meant(parts[0].n, params)]) + Expanded(parts[1..], params)
  }

  /** No dollars in the text, and no digit right after a reference. */
  predicate WellWritten(parts: seq<Part>) {
    && (forall i :: 0 <= i < |parts| && parts[i].Text? ==> parts[i].text != "" && '$' !in parts[i].text)
    && (forall i :: 0 < i < |parts| && parts[i - 1].Ref? && parts[i].Text? ==> !IsDigit(parts[i].text[0]))
  }

  lemma PlaceholderOf(digits: string, rest: string)
    requires digits != "" && (forall i :: 0 <= i < |digits| ==> IsDigit(digits[i]))
    requires rest == "" || !IsDigit(rest[0])
    ensures var s := "$" + digits + rest;
      PlaceholderLength(s) == 1 + |digits| && s[1..1 + |digits|] == digits && s[1 + |digits|..] == rest
  {
    DigitRunOfPrefix(digits, rest);
    assert ("$" + digits + rest)[1..] == digits + rest;
  }

  lemma StartsWithReference<T>(zeros: nat, n: nat, rest: string, params: seq<T>)
    requires rest == "" || !IsDigit(rest[0])
    ensures var s := Written(Ref(zeros, n)) + rest;
      && FillDollar(s, params) == [Val(Meant(n, params))] + FillDollar(rest, params)
      && Translate(s, params)
         == Translated("?" + Translate(rest, params).text, [Meant(n, params)] + Translate(rest, params).expanded)
  {
    hide Print, Number, DigitRun, Zeros, IsDigit;
    var digits := Zeros(zeros) + Print(n);
    PrintsDigits(n);
    LeadingZeros(zeros, Print(n));
    PlaceholderOf(digits, rest);
    assert Written(Ref(zeros, n)) == "$" + digits;
  }

  lemma TranslateChar<T>(s: string, params: seq<T>)
    requires s != "" && s[0] != '$'
    ensures var t := Translate(s[1..], params); Translate(s, params) == Translated([s[0]] + t.text, t.expanded)
  {
    assert PlaceholderLength(s) == 0;
  }

  lemma {:induction false} TranslatePlain<T>(text: string, rest: string, params: seq<T>)
    requires '$' !in text
    ensures var t := Translate(rest, params);
      Translate(text + rest, params) == Translated(text + t.text, t.expanded)
  {
    hide Translate;
    if text == "" {
      assert text + rest == rest;
    } else {
      var s, t := text + rest, Translate(rest, params);
      assert text[0] in text && forall c :: c in text[1..] ==> c in text;
      TranslatePlain(text[1..], rest, params);
      assert s[1..] == text[1..] + rest && s[0] == text[0];
      TranslateChar(s, params);
      assert [text[0]] + (text[1..] + t.text) == text + t.text;
    }
  }

  lemma StartsWithText<T>(text: string, rest: string, params: seq<T>)
    requires '$' !in text
    ensures FillDollar(text + rest, params) == AsPieces(text) + FillDollar(rest, params)
    ensures var t := Translate(rest, params);
      Translate(text + rest, params) == Translated(text + t.text, t.expanded)
  {
    hide FillDollar, Translate;
    TranslatePlain(text, rest, params);
    assert (text + rest)[..|text|] == text && (text + rest)[|text|..] == rest;
    PlainPrefix(text + rest, |text|, params);
  }

  lemma StartsOther(parts: seq<Part>)
    requires WellWritten(parts) && (parts != [] && parts[0].Text? ==> !IsDigit(parts[0].text[0]))
    ensures Statement(parts) == "" || !IsDigit(Statement(parts)[0])
  {
  }

  /** Every `$N`, of any number of digits and leading zeros, however often, means the N-th parameter, and nothing
      outside the list; the translated text has a `?` in its place and that parameter is bound to it. */
  lemma {:induction false} ReferencesMeanParameters<T>(parts: seq<Part>, params: seq<T>)
    requires WellWritten(parts)
    ensures FillDollar(Statement(parts), params) == Filled(parts, params)
    ensures Translate(Statement(parts), params) == Translated(Questioned(parts), Expanded(parts, params))
  {
    if parts != [] {
      var rest := Statement(parts[1..]);
      ReferencesMeanParameters(parts[1..], params);
      match parts[0]
      case Text(text) => StartsWithText(text, rest, params);
      case Ref(zeros, n) =>
        StartsOther(parts[1..]);
        StartsWithReference(zeros, n, rest, params);
    }
  }

  /***** Which words become LIKE *****/

  const SMALL_LETTERS: set<char> :=
    {'a', 'b', 'c', 'd', 'e', 'f', 'g', 'h', 'i', 'j', 'k', 'l', 'm', 'n', 'o', 'p', 'q', 'r', 's', 't', 'u', 'v',
     'w', 'x', 'y', 'z'}

  const CAPITALS: set<char> :=
    {'A', 'B', 'C', 'D', 'E', 'F', 'G', 'H', 'I', 'J', 'K', 'L', 'M', 'N', 'O', 'P', 'Q', 'R', 'S', 'T', 'U', 'V',
     'W', 'X', 'Y', 'Z'}

  lemma SmallLettersAre(c: char)
    ensures 'a' <= c <= 'z' <==> c in SMALL_LETTERS
  {
    if 'a' <= c <= 'z' {
      var k := c as int - 'a' as int;
      assert 0 <= k < 26;
    }
  }

  lemma CapitalsAre(c: char)
    ensures 'A' <= c <= 'Z' <==> c in CAPITALS
  {
    if 'A' <= c <= 'Z' {
      var k := c as int - 'A' as int;
      assert 0 <= k < 26;
    }
  }

  /** What words are made of: digits, letters without accents, and the underscore. */
  lemma WordCharactersAre(c: char)
    ensures IsWord(c) <==> c in SMALL_LETTERS || c in CAPITALS || c in "0123456789_"
  {
    SmallLettersAre(c);
    CapitalsAre(c);
  }

  predicate SpellsIlike(w: string) {
    |w| == 5 && w[0] in "iI" && w[1] in "lL" && w[2] in "iI" && w[3] in "kK" && w[4] in "eE"
  }

  predicate AllWord(w: string) {
    forall i :: 0 <= i < |w| ==> IsWord(w[i])
  }

  lemma {:induction false} InsideWord(w: string, rest: string)
    requires AllWord(w) && w != "" && (rest == "" || !IsWord(rest[0]))
    ensures Downgrade(true, w + rest) == w + Downgrade(true, rest)
  {
    assert (w + rest)[1..] == w[1..] + rest;
    if |w| == 1 {
      assert w[1..] + rest == rest;
    } else {
      InsideWord(w[1..], rest);
      assert [w[0]] + (w[1..] + Downgrade(true, rest)) == w + Downgrade(true, rest);
    }
  }

  lemma StartsWithIlike(w: string, rest: string)
    requires AllWord(w) && w != "" && (rest == "" || !IsWord(rest[0]))
    ensures StartsIlike(false, w + rest) <==> SpellsIlike(w)
  {
    var s := w + rest;
    assert forall i :: 0 <= i < |w| ==> s[i] == w[i];
    if |w| < 5 && |s| >= 5 {
      assert s[|w|] == rest[0];
    } else if |w| == 5 && |s| > 5 {
      assert s[5] == rest[0];
    }
  }

  lemma OtherWordStays(w: string, rest: string)
    requires AllWord(w) && w != "" && (rest == "" || !IsWord(rest[0])) && !StartsIlike(false, w + rest)
    ensures Downgrade(false, w + rest) == w + Downgrade(true, rest)
  {
    hide StartsIlike;
    var s := w + rest;
    assert s[1..] == w[1..] + rest;
    if |w| == 1 {
      assert w[1..] + rest == rest;
    } else {
      InsideWord(w[1..], rest);
      Associative([w[0]], w[1..], Downgrade(true, rest));
      assert [w[0]] + w[1..] == w;
    }
  }

  /** A whole word becomes LIKE exactly if it spells ILIKE, in any case; nothing else changes. */
  lemma WordDowngraded(w: string, rest: string)
    requires AllWord(w) && w != "" && (rest == "" || !IsWord(rest[0]))
    ensures Downgrade(false, w + rest) == (if SpellsIlike(w) then "LIKE" else w) + Downgrade(true, rest)
    ensures rest != "" ==> Downgrade(true, rest) == [rest[0]] + Downgrade(false, rest[1..])
  {
    hide StartsIlike, SpellsIlike, AllWord;
    StartsWithIlike(w, rest);
    NotInsideWord(rest);
    if SpellsIlike(w) {
      FiveLetters(w);
      assert (w + rest)[5..] == rest;
    } else {
      OtherWordStays(w, rest);
    }
  }

  lemma FiveLetters(w: string)
    requires SpellsIlike(w)
    ensures |w| == 5
  {
  }

  lemma NotInsideWord(rest: string)
    requires rest != "" ==> !IsWord(rest[0])
    ensures rest != "" ==> Downgrade(true, rest) == [rest[0]] + Downgrade(false, rest[1..])
  {
  }
}
