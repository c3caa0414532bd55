/** The printf-style formatter of log lines. */
module LoggerFormat {

  // A message part with its renderings: `part` for %s and leftovers, `number` for %d (which
  // may throw and then reads NaN), `json` for %j, %o and %O. Text is a JavaScript string.
  datatype Numeric = Number(text: string) | Unconvertible

  datatype Value =
    | Text(text: string, number: Numeric, json: string)
    | Other(rendered: string, number: Numeric, json: string)

  function FormatPart(v: Value): string {
    if v.Text? then v.text else v.rendered
  }

  predicate IsSpecifier(c: char) { c in "sdjoO%" }

  /** A match of the specifier pattern at the head of the text. */
  predicate MatchesHere(s: string) { |s| >= 2 && s[0] == '%' && IsSpecifier(s[1]) }

  function Render(c: char, v: Value): string
  {
    if c == 'd' then (if v.number.Number? then v.number.text else "NaN")
    else if c == 'j' || c == 'o' || c == 'O' then v.json
    else FormatPart(v)
  }

  /** The specifiers are %s, %d, %j, %o, %O and %%. */
  lemma {:induction false} SpecifiersAreSix(c: char)
    ensures MatchesHere(['%', c]) <==> c == 's' || c == 'd' || c == 'j' || c == 'o' || c == 'O' || c == '%'
    ensures c != '%' ==> !MatchesHere([c, 's'])
  {
  }

  /** %s and leftovers show a text as it is and anything else as rendered, %d shows a number and NaN
      when there is none, and %j, %o and %O show the structure. */
  lemma {:induction false} RendersBySpecifier(v: Value)
    ensures Render('s', v) == FormatPart(v) == (match v case Text(text, _, _) => text case Other(rendered, _, _) => rendered)
    ensures Render('d', v) == (match v.number case Number(text) => text case Unconvertible => "NaN")
    ensures Render('j', v) == Render('o', v) == Render('O', v) == v.json
  {
  }

  // ---- The line as pieces that say where they come from ----------------------------------

  datatype Piece =
    | Verbatim(text: string)
    | Percent
    | Rendered(specifier: char, index: nat, text: string)
    | Leftover(index: nat, text: string)

  /** The first piece of a non-empty format, when the next unused argument is `next`. */
  function FirstPiece(s: string, messages: seq<Value>, next: nat): Piece
    requires s != ""
  {
    if !MatchesHere(s) then Verbatim(s[..1])
    else if s[1] == '%' then Percent
    else if next >= |messages| then Verbatim(s[..2])
    else Rendered(s[1], next, Render(s[1], messages[next]))
  }

  function Width(s: string): (w: nat)
    requires s != ""
    ensures 1 <= w <= |s|
  {
    if MatchesHere(s) then 2 else 1
  }

  /** The pieces a format produces when the next unused argument is `next`. */
  function FormatPieces(s: string, messages: seq<Value>, next: nat): seq<Piece>
    decreases |s|
  {
    if s == "" then []
    else
      var piece := FirstPiece(s, messages, next);
      [piece] + FormatPieces(s[Width(s)..], messages, next + |Used(piece)|)
  }

  function LeftoverPieces(messages: seq<Value>, next: nat): seq<Piece>
    decreases |messages| - next
  {
    if next >= |messages| then [] else [Leftover(next, FormatPart(messages[next]))] + LeftoverPieces(messages, next + 1)
  }

  function Used(p: Piece): seq<nat> {
    if p.Rendered? || p.Leftover? then [p.index] else []
  }

  function UsedBy(pieces: seq<Piece>): seq<nat> {
    if pieces == [] then [] else Used(pieces[0]) + UsedBy(pieces[1..])
  }

  function PieceText(p: Piece): string {
    match p
    case Verbatim(text) => text
    case Percent => "%"
    case Rendered(_, _, text) => text
    case Leftover(_, text) => " " + text
  }

  function TextOf(pieces: seq<Piece>): string {
    if pieces == [] then "" else PieceText(pieces[0]) + TextOf(pieces[1..])
  }

  function PieceSource(p: Piece): string {
    match p
    case Verbatim(text) => text
    case Percent => "%%"
    case Rendered(c, _, _) => ['%', c]
    case Leftover(_, _) => ""
  }

  /** The part of the format each piece stands for. */
  function SourceOf(pieces: seq<Piece>): string {
    if pieces == [] then "" else PieceSource(pieces[0]) + SourceOf(pieces[1..])
  }

  lemma {:induction false} Cons(p: Piece, rest: seq<Piece>)
    ensures TextOf([p] + rest) == PieceText(p) + TextOf(rest)
    ensures UsedBy([p] + rest) == Used(p) + UsedBy(rest)
    ensures SourceOf([p] + rest) == PieceSource(p) + SourceOf(rest)
  {
    assert ([p] + rest)[1..] == rest;
  }

  lemma {:induction false} FormatCons(s: string, messages: seq<Value>, next: nat)
    requires s != ""
    ensures var p := FirstPiece(s, messages, next);
            var rest := FormatPieces(s[Width(s)..], messages, next + |Used(p)|);
            FormatPieces(s, messages, next) == [p] + rest
            && TextOf(FormatPieces(s, messages, next)) == PieceText(p) + TextOf(rest)
            && UsedBy(FormatPieces(s, messages, next)) == Used(p) + UsedBy(rest)
            && SourceOf(FormatPieces(s, messages, next)) == PieceSource(p) + SourceOf(rest)
  {
    var p := FirstPiece(s, messages, next);
    Cons(p, FormatPieces(s[Width(s)..], messages, next + |Used(p)|));
  }

  lemma {:induction false} LeftoverCons(messages: seq<Value>, next: nat)
    requires next < |messages|
    ensures TextOf(LeftoverPieces(messages, next)) == " " + FormatPart(messages[next]) + TextOf(LeftoverPieces(messages, next + 1))
    ensures UsedBy(LeftoverPieces(messages, next)) == [next] + UsedBy(LeftoverPieces(messages, next + 1))
  {
    Cons(Leftover(next, FormatPart(messages[next])), LeftoverPieces(messages, next + 1));
  }

  /** The pattern occurs somewhere in the text. */
  ghost predicate HasMatch(s: string) {
    exists i :: 0 <= i <= |s| && MatchesHere(s[i..])
  }

  ghost predicate IsFormat(messages: seq<Value>) {
    messages != [] && messages[0].Text? && HasMatch(messages[0].text)
  }

  ghost function Pieces(messages: seq<Value>): seq<Piece> {
    if messages == [] then []
    else if IsFormat(messages) then
      var formatted := FormatPieces(messages[0].text, messages, 1);
      formatted + LeftoverPieces(messages, 1 + |UsedBy(formatted)|)
    else [Rendered('s', 0, FormatPart(messages[0]))] + LeftoverPieces(messages, 1)
  }

  ghost function Formatted(messages: seq<Value>): string { TextOf(Pieces(messages)) }

  // ---- The formatter's loops ------------------------------------------------------------

  method TestPattern(s: string) returns (found: bool)
    ensures found <==> HasMatch(s)
  {
    for i := 0 to |s|
      invariant forall j :: 0 <= j < i ==> !MatchesHere(s[j..])
    {
      if MatchesHere(s[i..]) { return true; }
    }
    return false;
  }

  // The replacement of one match.
  method Replacement(matched: string, messages: seq<Value>, argIndex: nat) returns (text: string, next: nat)
    requires MatchesHere(matched)
    ensures text == PieceText(FirstPiece(matched, messages, argIndex))
    ensures next == argIndex + |Used(FirstPiece(matched, messages, argIndex))|
  {
    if matched[1] == '%' { return "%", argIndex; }
    if argIndex >= |messages| { return matched[..2], argIndex; }
    return Render(matched[1], messages[argIndex]), argIndex + 1;
  }

  lemma {:induction false} Associates(a: string, b: string, c: string)
    ensures a + (b + c) == (a + b) + c
  {}

  method ReplaceMatches(s: string, messages: seq<Value>) returns (text: string, argIndex: nat)
    requires messages != []
    ensures text == TextOf(FormatPieces(s, messages, 1))
    ensures argIndex == 1 + |UsedBy(FormatPieces(s, messages, 1))|
  {
    hide *;
    ghost var all := FormatPieces(s, messages, 1);
    var i := 0;
    text, argIndex := "", 1;
    assert s[0..] == s;
    while i < |s|
      invariant 0 <= i <= |s|
      invariant TextOf(all) == text + TextOf(FormatPieces(s[i..], messages, argIndex))
      invariant |UsedBy(all)| == argIndex - 1 + |UsedBy(FormatPieces(s[i..], messages, argIndex))|
    {
      var rest := s[i..];
      FormatCons(rest, messages, argIndex);
      ghost var w := Width(rest);
      assert rest[w..] == s[i + w..];
      HeadOf(rest, messages, argIndex);
      var piece, next, width := rest[..1], argIndex, 1;
      if MatchesHere(rest) {
        piece, next := Replacement(rest, messages, argIndex);
        width := 2;
      }
      Associates(text, piece, TextOf(FormatPieces(s[i + w..], messages, next)));
      text, argIndex := text + piece, next;
      i := i + width;
    }
    FormatEnds(messages, argIndex);
    assert s[i..] == "";
  }

  lemma {:induction false} HeadOf(s: string, messages: seq<Value>, next: nat)
    requires s != ""
    ensures Width(s) == if MatchesHere(s) then 2 else 1
    ensures !MatchesHere(s) ==> PieceText(FirstPiece(s, messages, next)) == s[..1] && Used(FirstPiece(s, messages, next)) == []
  {}

  lemma {:induction false} FormatEnds(messages: seq<Value>, next: nat)
    ensures FormatPieces("", messages, next) == []
    ensures TextOf(FormatPieces("", messages, next)) == "" && UsedBy(FormatPieces("", messages, next)) == []
    ensures SourceOf(FormatPieces("", messages, next)) == ""
  {}

  method AppendLeftovers(formatted: string, messages: seq<Value>, argIndex: nat) returns (message: string)
    ensures message == formatted + TextOf(LeftoverPieces(messages, argIndex))
  {
    hide *;
    message := formatted;
    var index := argIndex;
    while index < |messages|
      invariant formatted + TextOf(LeftoverPieces(messages, argIndex)) == message + TextOf(LeftoverPieces(messages, index))
    {
      LeftoverCons(messages, index);
      var part := " " + FormatPart(messages[index]);
      Associates(message, part, TextOf(LeftoverPieces(messages, index + 1)));
      message := message + part;
      index := index + 1;
    }
    LeftoversEnd(messages, index);
  }

  method JoinParts(messages: seq<Value>) returns (message: string)
    requires messages != []
    ensures message == FormatPart(messages[0]) + TextOf(LeftoverPieces(messages, 1))
  {
    hide *;
    message := "";
    for index := 0 to |messages|
      invariant index == 0 ==> message == ""
      invariant index > 0 ==> message + TextOf(LeftoverPieces(messages, index)) == FormatPart(messages[0]) + TextOf(LeftoverPieces(messages, 1))
    {
      ghost var before := message;
      var part := FormatPart(messages[index]);
      if index > 0 {
        LeftoverCons(messages, index);
        message := message + " ";
        Associates(before, " ", part);
        Associates(before, " " + part, TextOf(LeftoverPieces(messages, index + 1)));
      }
      message := message + part;
    }
    LeftoversEnd(messages, |messages|);
  }

  method FormatUserMessages(messages: seq<Value>) returns (message: string)
    ensures message == Formatted(messages)
  {
    hide FormatPieces, LeftoverPieces, TextOf, UsedBy, FormatPart, HasMatch;
    if messages == [] {
      NothingToFormat();
      return "";
    }
    var first := messages[0];
    if first.Text? {
      var isFormat := TestPattern(first.text);
      if isFormat {
        var argIndex;
        message, argIndex := ReplaceMatches(first.text, messages);
        TextConcat(FormatPieces(first.text, messages, 1), LeftoverPieces(messages, argIndex));
        message := AppendLeftovers(message, messages, argIndex);
        return;
      }
    }
    message := JoinParts(messages);
    Cons(Rendered('s', 0, FormatPart(first)), LeftoverPieces(messages, 1));
  }

  lemma {:induction false} LeftoversEnd(messages: seq<Value>, next: nat)
    requires next >= |messages|
    ensures TextOf(LeftoverPieces(messages, next)) == ""
  {}

  lemma {:induction false} NothingToFormat()
    ensures Formatted([]) == ""
  {}

  // ---- What the line holds ----------------------------------------------------------------

  lemma {:induction false} TextConcat(a: seq<Piece>, b: seq<Piece>)
    ensures TextOf(a + b) == TextOf(a) + TextOf(b)
  {
    if a == [] {
      assert a + b == b;
    } else {
      hide *;
      var first, rest := a[0], a[1..];
      assert a == [first] + rest && a + b == [first] + (rest + b);
      Cons(first, rest);
      Cons(first, rest + b);
      TextConcat(rest, b);
      Associates(PieceText(first), TextOf(rest), TextOf(b));
    }
  }

  lemma {:induction false} UsedConcat(a: seq<Piece>, b: seq<Piece>)
    ensures UsedBy(a + b) == UsedBy(a) + UsedBy(b)
  {
    if a == [] {
      assert a + b == b;
    } else {
      hide *;
      var first, rest := a[0], a[1..];
      assert a == [first] + rest && a + b == [first] + (rest + b);
      Cons(first, rest);
      Cons(first, rest + b);
      UsedConcat(rest, b);
    }
  }

  function Counting(from: nat, to: nat): seq<nat>
    requires from <= to
  {
    seq(to - from, i requires 0 <= i => from + i)
  }

  lemma {:induction false} FormatUsesInOrder(s: string, messages: seq<Value>, next: nat)
    requires next <= |messages|
    ensures var used := UsedBy(FormatPieces(s, messages, next));
            next + |used| <= |messages| && used == Counting(next, next + |used|)
    decreases |s|
  {
    hide FormatPieces, UsedBy, Render, TextOf, SourceOf;
    if s == "" {
      FormatEnds(messages, next);
    } else {
      FormatCons(s, messages, next);
      FormatUsesInOrder(s[Width(s)..], messages, next + |Used(FirstPiece(s, messages, next))|);
    }
  }

  lemma {:induction false} LeftoversInOrder(messages: seq<Value>, next: nat)
    requires next <= |messages|
    ensures UsedBy(LeftoverPieces(messages, next)) == Counting(next, |messages|)
    decreases |messages| - next
  {
    if next < |messages| {
      LeftoverCons(messages, next);
      LeftoversInOrder(messages, next + 1);
    }
  }

  /** Every argument is rendered exactly once, in order; a format is not rendered itself. */
  lemma {:induction false} EveryArgumentOnceInOrder(messages: seq<Value>)
    requires messages != []
    ensures UsedBy(Pieces(messages)) == Counting(if IsFormat(messages) then 1 else 0, |messages|)
  {
    hide FormatPieces, LeftoverPieces, UsedBy, TextOf, SourceOf, HasMatch, FormatPart;
    if IsFormat(messages) {
      var formatted := FormatPieces(messages[0].text, messages, 1);
      FormatUsesInOrder(messages[0].text, messages, 1);
      LeftoversInOrder(messages, 1 + |UsedBy(formatted)|);
      UsedConcat(formatted, LeftoverPieces(messages, 1 + |UsedBy(formatted)|));
    } else {
      LeftoversInOrder(messages, 1);
      Cons(Rendered('s', 0, FormatPart(messages[0])), LeftoverPieces(messages, 1));
    }
  }

  /**
   * Each piece renders what it names. A specifier stays verbatim only when the arguments are
   * used up, and single characters are copied only where no specifier starts.
   */
  ghost predicate Faithful(pieces: seq<Piece>, messages: seq<Value>, next: nat) {
    forall k :: 0 <= k < |pieces| ==>
      match pieces[k]
      case Verbatim(text) =>
        (if |text| == 1 then !MatchesHere(SourceOf(pieces[k..])) else (MatchesHere(text) && |text| == 2 && text[1] != '%' && next + |UsedBy(pieces[..k])| >= |messages|))
      case Percent => true
      case Rendered(c, index, text) => IsSpecifier(c) && c != '%' && index < |messages| && text == Render(c, messages[index])
      case Leftover(_, _) => false
  }

  /**
   * A format's pieces read back as the format itself, whatever the arguments are: nothing
   * of it is lost or reordered, and unmatched specifiers are kept as they stand.
   */
  lemma {:induction false} FormatIsCoveredFaithfully(s: string, messages: seq<Value>, next: nat)
    ensures SourceOf(FormatPieces(s, messages, next)) == s
    ensures Faithful(FormatPieces(s, messages, next), messages, next)
    decreases |s|
  {
    hide FormatPieces, UsedBy, Render, TextOf, SourceOf;
    if s == "" {
      FormatEnds(messages, next);
    } else {
      var p := FirstPiece(s, messages, next);
      var rest := FormatPieces(s[Width(s)..], messages, next + |Used(p)|);
      var pieces := [p] + rest;
      FormatCons(s, messages, next);
      FormatIsCoveredFaithfully(s[Width(s)..], messages, next + |Used(p)|);
      forall k | 1 <= k < |pieces| ensures |UsedBy(pieces[..k])| == |Used(p)| + |UsedBy(rest[..k - 1])| && pieces[k] == rest[k - 1] && pieces[k..] == rest[k - 1..] {
        assert pieces[..k] == [p] + rest[..k - 1];
        Cons(p, rest[..k - 1]);
      }
      assert s == s[..Width(s)] + s[Width(s)..];
      assert PieceSource(p) == s[..Width(s)];
      assert pieces[0..] == pieces;
    }
  }

  // ---- Escaping ------------------------------------------------------------------------------

  /** Every percent sign doubled. */
  function Escaped(s: string): string {
    if s == "" then "" else (if s[0] == '%' then "%%" else [s[0]]) + Escaped(s[1..])
  }

  lemma {:induction false} EscapedFormatsToItself(s: string, messages: seq<Value>, next: nat)
    ensures TextOf(FormatPieces(Escaped(s), messages, next)) == s
    ensures UsedBy(FormatPieces(Escaped(s), messages, next)) == []
  {
    if s != "" {
      EscapedFormatsToItself(s[1..], messages, next);
      if s[0] == '%' {
        assert Escaped(s)[2..] == Escaped(s[1..]);
      } else {
        assert Escaped(s)[1..] == Escaped(s[1..]);
      }
      assert s == [s[0]] + s[1..];
    }
  }

  lemma {:induction false} EscapedMatches(s: string)
    ensures HasMatch(Escaped(s)) <==> '%' in s
    ensures '%' !in s ==> Escaped(s) == s
  {
    if s != "" {
      var e := Escaped(s);
      var rest := Escaped(s[1..]);
      EscapedMatches(s[1..]);
      if s[0] == '%' {
        assert MatchesHere(e[0..]);
      } else {
        assert e == [s[0]] + rest;
        if HasMatch(rest) {
          var i :| 0 <= i <= |rest| && MatchesHere(rest[i..]);
          assert e[i + 1..] == rest[i..];
        }
        if HasMatch(e) {
          var i :| 0 <= i <= |e| && MatchesHere(e[i..]);
          assert i > 0 && e[i..] == rest[i - 1..];
        }
      }
    }
  }

  /** The rendered arguments from `next` on, each after a space. */
  function Spaced(messages: seq<Value>, next: nat): string
    decreases |messages| - next
  {
    if next >= |messages| then "" else " " + FormatPart(messages[next]) + Spaced(messages, next + 1)
  }

  lemma {:induction false} LeftoversAreSpaced(messages: seq<Value>, next: nat)
    ensures TextOf(LeftoverPieces(messages, next)) == Spaced(messages, next)
    decreases |messages| - next
  {
    if next < |messages| {
      LeftoverCons(messages, next);
      LeftoversAreSpaced(messages, next + 1);
    }
  }

  /** Escaping a text keeps it and every argument intact, whichever branch formats the line. */
  lemma {:induction false} EscapingRoundTrip(s: string, messages: seq<Value>)
    requires messages != [] && messages[0].Text? && messages[0].text == Escaped(s)
    ensures Formatted(messages) == s + Spaced(messages, 1)
  {
    EscapedMatches(s);
    LeftoversAreSpaced(messages, 1);
    if IsFormat(messages) {
      EscapedFormatsToItself(s, messages, 1);
      TextConcat(FormatPieces(Escaped(s), messages, 1), LeftoverPieces(messages, 1));
    } else {
      assert Pieces(messages)[1..] == LeftoverPieces(messages, 1);
    }
  }

  method MessagesToMessage(subject: string, messages: seq<Value>) returns (line: string)
    ensures subject == "" ==> line == Formatted(messages)
    ensures Formatted(messages) == "" ==> line == subject
    ensures subject != "" && Formatted(messages) != "" ==> line == subject + " " + Formatted(messages)
  {
    var userMessage := FormatUserMessages(messages);
    if subject == "" { return userMessage; }
    if userMessage == "" { return subject; }
    return subject + " " + userMessage;
  }
}
