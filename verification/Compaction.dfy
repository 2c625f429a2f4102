/**
 What encoding a raw JSON payload does to its text: white space outside string literals goes,
 and `<`, `>`, `&`, U+2028 and U+2029 become \u escapes. It is the encoder behind the file
 inbox, and this shows which payloads it leaves alone.
 */
module Compaction {
  import opened Common
  import opened InboxModel
  import opened InboxSteps

  /** Where the scanner is relative to string literals. */
  datatype Scan = Outside | Inside | AfterBackslash

  predicate IsSpace(c: char) {
    c == ' ' || c == '\t' || c == '\r' || c == '\n'
  }

  predicate IsEscaped(c: char) {
    c == '<' || c == '>' || c == '&' || c == '\U{2028}' || c == '\U{2029}'
  }

  function Next(at: Scan, c: char): Scan {
    match at
    case Outside => if c == '"' then Inside else Outside
    case Inside => if c == '"' then Outside else if c == '\\' then AfterBackslash else Inside
    case AfterBackslash => Inside
  }

  function Emit(at: Scan, c: char): string {
    if c == '<' then "\\u003c"
    else if c == '>' then "\\u003e"
    else if c == '&' then "\\u0026"
    else if c == '\U{2028}' then "\\u2028"
    else if c == '\U{2029}' then "\\u2029"
    else if at == Outside && IsSpace(c) then ""
    else [c]
  }

  function CompactFrom(at: Scan, text: string): string
    decreases |text|
  {
    if text == [] then [] else Emit(at, text[0]) + CompactFrom(Next(at, text[0]), text[1..])
  }

  function Compact(text: string): string {
    CompactFrom(Outside, text)
  }

  /** No white space outside literals and none of the escaped characters anywhere. */
  predicate Tight(at: Scan, text: string)
    decreases |text|
  {
    text == [] ||
    (!IsEscaped(text[0]) && !(at == Outside && IsSpace(text[0])) && Tight(Next(at, text[0]), text[1..]))
  }

  function ScanAll(at: Scan, text: string): Scan
    decreases |text|
  {
    if text == [] then at else ScanAll(Next(at, text[0]), text[1..])
  }

  /** An emitted piece is tight and leaves the scanner where the original character did. */
  lemma EmitIsTight(at: Scan, c: char)
    ensures Tight(at, Emit(at, c)) && ScanAll(at, Emit(at, c)) == Next(at, c)
  {
    if IsEscaped(c) {
      var e := Emit(at, c);
      assert |e| == 6 && e[0] == '\\' && e[1] == 'u';
      var a1 := Next(at, e[0]);
      var a2 := Next(a1, e[1]);
      assert a2 == Next(at, c);
      PlainTail(a2, e[2..]);
      assert e[1..][1..] == e[2..];
      assert Tight(a1, e[1..]) && ScanAll(a1, e[1..]) == a2;
    }
  }

  lemma {:induction false} PlainTail(at: Scan, s: string)
    requires at != AfterBackslash
    requires forall i :: 0 <= i < |s| ==> !IsEscaped(s[i]) && !IsSpace(s[i]) && s[i] != '"' && s[i] != '\\'
    ensures Tight(at, s) && ScanAll(at, s) == at
  {
    if s != [] { PlainTail(at, s[1..]); }
  }

  lemma {:induction false} TightConcat(at: Scan, s: string, t: string)
    requires Tight(at, s) && Tight(ScanAll(at, s), t)
    ensures Tight(at, s + t)
    decreases |s|
  {
    if s == [] {
      assert s + t == t;
    } else {
      assert (s + t)[1..] == s[1..] + t;
      TightConcat(Next(at, s[0]), s[1..], t);
    }
  }

  lemma {:induction false} CompactIsTight(at: Scan, text: string)
    ensures Tight(at, CompactFrom(at, text))
    decreases |text|
  {
    if text != [] {
      EmitIsTight(at, text[0]);
      CompactIsTight(Next(at, text[0]), text[1..]);
      TightConcat(at, Emit(at, text[0]), CompactFrom(Next(at, text[0]), text[1..]));
    }
  }

  lemma {:induction false} TightIsFixed(at: Scan, text: string)
    requires Tight(at, text)
    ensures CompactFrom(at, text) == text
    decreases |text|
  {
    if text != [] { TightIsFixed(Next(at, text[0]), text[1..]); }
  }

  /** Exactly the payloads the inbox stores unchanged. */
  lemma FixedExactlyWhenTight(text: string)
    ensures Compact(text) == text <==> Tight(Outside, text)
  {
    CompactIsTight(Outside, text);
    if Tight(Outside, text) { TightIsFixed(Outside, text); }
  }

  lemma CompactIsIdempotent(text: string)
    ensures Compact(Compact(text)) == Compact(text)
  {
    CompactIsTight(Outside, text);
    TightIsFixed(Outside, Compact(text));
  }

  // ---- What encoding keeps ----

  /** What an escape of six characters stands for, by the table of the JSON encoder. */
  function Unescaped(escape: string): Option<char> {
    if escape == "\\u003c" then Some('<')
    else if escape == "\\u003e" then Some('>')
    else if escape == "\\u0026" then Some('&')
    else if escape == "\\u2028" then Some('\U{2028}')
    else if escape == "\\u2029" then Some('\U{2029}')
    else None
  }

  /** The text starts with one of those escapes. */
  predicate StartsEscape(text: string) {
    |text| >= 6 && Unescaped(text[..6]).Some?
  }

  /** What a JSON text says: white space outside literals says nothing, and within a literal an escape
      says the character it stands for. */
  function Meaning(at: Scan, text: string): string
    decreases |text|
  {
    if text == [] then []
    else if at == Inside && StartsEscape(text) then [Unescaped(text[..6]).value] + Meaning(at, text[6..])
    else if at == Outside && IsSpace(text[0]) then Meaning(at, text[1..])
    else [text[0]] + Meaning(Next(at, text[0]), text[1..])
  }

  /** What every JSON text keeps to: backslashes and the escaped characters only within literals, and
      no escaped character right behind a backslash. */
  predicate Lexical(at: Scan, text: string)
    decreases |text|
  {
    text == [] ||
    (&& (at == Outside ==> text[0] != '\\' && !IsEscaped(text[0]))
     && (at == AfterBackslash ==> !IsEscaped(text[0]))
     && Lexical(Next(at, text[0]), text[1..]))
  }

  /** Within a literal, what encoding leaves without a backslash was there before. */
  lemma {:induction false} PlainPrefixWasThere(at: Scan, text: string, p: string)
    requires at != Outside && p <= CompactFrom(at, text)
    requires forall i :: 0 <= i < |p| ==> p[i] != '\\' && p[i] != '"'
    ensures p <= text
    decreases |p|
  {
    if p != "" {
      var e, rest := Emit(at, text[0]), CompactFrom(Next(at, text[0]), text[1..]);
      assert (e + rest)[0] == e[0] == p[0];
      assert e == [text[0]];
      assert (e + rest)[1..] == rest;
      PlainPrefixWasThere(Next(at, text[0]), text[1..], p[1..]);
    }
  }

  lemma EscapeTails(escape: string)
    requires |escape| == 6 && Unescaped(escape).Some?
    ensures escape[0] == '\\' && forall i :: 0 <= i < 5 ==>
              escape[1..][i] != '\\' && escape[1..][i] != '"' && !IsEscaped(escape[1..][i])
  {
  }

  /** Encoding makes no escape that was not there out of a backslash and what follows it. */
  lemma NoNewEscape(text: string)
    requires text != "" && text[0] == '\\' && StartsEscape(CompactFrom(Inside, text))
    ensures StartsEscape(text) && text[..6] == CompactFrom(Inside, text)[..6]
  {
    var out := CompactFrom(Inside, text);
    var rest := CompactFrom(AfterBackslash, text[1..]);
    assert out == ['\\'] + rest;
    EscapeTails(out[..6]);
    var p := out[..6][1..];
    assert p == rest[..5];
    PlainPrefixWasThere(AfterBackslash, text[1..], p);
    assert text[..6] == ['\\'] + p == out[..6];
  }

  predicate Plain(p: string) {
    forall i :: 0 <= i < |p| ==> p[i] != '\\' && p[i] != '"' && !IsEscaped(p[i])
  }

  lemma PlainCharIsEmitted(at: Scan, c: char, text: string)
    requires at != Outside && Plain([c])
    ensures CompactFrom(at, [c] + text) == [c] + CompactFrom(Inside, text)
  {
    assert [c][0] == c && ([c] + text)[1..] == text;
  }

  /** Literal text without quotes, backslashes and escaped characters is emitted as it is. */
  lemma {:induction false} PlainIsEmitted(at: Scan, p: string, text: string)
    requires at != Outside && Plain(p)
    ensures CompactFrom(at, p + text) == p + CompactFrom(if p == "" then at else Inside, text)
    decreases |p|
  {
    hide CompactFrom, IsEscaped;
    if p == "" {
      assert p + text == text;
    } else {
      PlainCharIsEmitted(at, p[0], p[1..] + text);
      PlainIsEmitted(Inside, p[1..], text);
      assert [p[0]] + (p[1..] + text) == p + text && p == [p[0]] + p[1..];
    }
  }

  /** An escape that was there is emitted as it is. */
  lemma EscapeIsEmitted(text: string)
    requires StartsEscape(text)
    ensures CompactFrom(Inside, text) == text[..6] + CompactFrom(Inside, text[6..])
  {
    EscapeTails(text[..6]);
    var p := text[..6][1..];
    assert text[1..] == p + text[6..];
    PlainIsEmitted(AfterBackslash, p, text[6..]);
    assert text[..6] == ['\\'] + p;
  }

  /** After an escape the rest of the text keeps to the rules. */
  lemma LexicalBehindEscape(text: string)
    requires StartsEscape(text) && Lexical(Inside, text)
    ensures Lexical(Inside, text[6..])
  {
    EscapeTails(text[..6]);
    var p := text[..6][1..];
    assert text[1..] == p + text[6..];
    LexicalBehindPlain(AfterBackslash, p, text[6..]);
  }

  lemma {:induction false} LexicalBehindPlain(at: Scan, p: string, text: string)
    requires at != Outside && p != "" && Lexical(at, p + text)
    requires forall i :: 0 <= i < |p| ==> p[i] != '\\' && p[i] != '"'
    ensures Lexical(Inside, text)
    decreases |p|
  {
    assert (p + text)[1..] == p[1..] + text;
    if |p| == 1 {
      assert p[1..] + text == text;
    } else {
      LexicalBehindPlain(Inside, p[1..], text);
    }
  }

  /** Encoding keeps what the text says. */
  lemma {:induction false} EncodingKeepsMeaning(at: Scan, text: string)
    requires Lexical(at, text)
    ensures Meaning(at, CompactFrom(at, text)) == Meaning(at, text)
    decreases |text|
  {
    if text == "" {
    } else if at == Inside && StartsEscape(text) {
      EscapeIsEmitted(text);
      LexicalBehindEscape(text);
      EncodingKeepsMeaning(at, text[6..]);
      var out := CompactFrom(at, text);
      assert out[..6] == text[..6] && out[6..] == CompactFrom(at, text[6..]);
    } else {
      EncodingKeepsMeaning(Next(at, text[0]), text[1..]);
      OneCharacterKeepsMeaning(at, text);
    }
  }

  /** The written escape reads as the character it was written for. */
  lemma EscapeReadsBack(at: Scan, c: char)
    requires IsEscaped(c)
    ensures |Emit(at, c)| == 6 && Unescaped(Emit(at, c)) == Some(c)
    ensures at != AfterBackslash ==> Next(at, c) == at
  {
  }

  lemma OneCharacterKeepsMeaning(at: Scan, text: string)
    requires text != "" && Lexical(at, text) && !(at == Inside && StartsEscape(text))
    requires Meaning(Next(at, text[0]), CompactFrom(Next(at, text[0]), text[1..])) == Meaning(Next(at, text[0]), text[1..])
    ensures Meaning(at, CompactFrom(at, text)) == Meaning(at, text)
  {
    var c, out := text[0], CompactFrom(at, text);
    var rest := CompactFrom(Next(at, c), text[1..]);
    if IsEscaped(c) {
      EscapeReadsBack(at, c);
      hide Emit, Unescaped, Lexical;
      assert out[..6] == Emit(at, c) && out[6..] == rest;
    } else if at == Outside && IsSpace(c) {
      assert out == rest;
    } else {
      assert out == [c] + rest && out[1..] == rest;
      hide Unescaped, Emit;
      if at == Inside && StartsEscape(out) {
        EscapeTails(out[..6]);
        NoNewEscape(text);
      }
    }
  }

  /** The text without its white space outside literals. */
  function WithoutOuterSpace(at: Scan, text: string): string
    decreases |text|
  {
    if text == [] then []
    else (if at == Outside && IsSpace(text[0]) then [] else [text[0]]) + WithoutOuterSpace(Next(at, text[0]), text[1..])
  }

  /** No literal of the text spells one of the escapes itself. */
  predicate SpellsNoEscape(at: Scan, text: string)
    decreases |text|
  {
    text == [] || (!(at == Inside && StartsEscape(text)) && SpellsNoEscape(Next(at, text[0]), text[1..]))
  }

  lemma {:induction false} MeaningWithoutEscapes(at: Scan, text: string)
    requires SpellsNoEscape(at, text)
    ensures Meaning(at, text) == WithoutOuterSpace(at, text)
    decreases |text|
  {
    if text != "" { MeaningWithoutEscapes(Next(at, text[0]), text[1..]); }
  }

  /** The stored body means what was delivered: undoing the escapes gives the same text as undoing them
      in the delivered body, which is the body itself without its outer white space if it spelled none. */
  lemma StoredBodyMeansTheSame(text: string)
    requires Lexical(Outside, text)
    ensures Meaning(Outside, Compact(text)) == Meaning(Outside, text)
    ensures SpellsNoEscape(Outside, text) ==> Meaning(Outside, Compact(text)) == WithoutOuterSpace(Outside, text)
  {
    EncodingKeepsMeaning(Outside, text);
    if SpellsNoEscape(Outside, text) { MeaningWithoutEscapes(Outside, text); }
  }

  /** The encoder of the file inbox for a given notion of well-formed JSON. */
  function JsonEncoder(isJson: string -> bool): Encoder {
    p => if isJson(p) then Some(Compact(p)) else None
  }

  /** It meets the one assumption the inbox proofs make of an encoder. */
  lemma JsonEncoderIsStable(isJson: string -> bool)
    requires forall p :: isJson(p) ==> isJson(Compact(p))
    ensures Stable(JsonEncoder(isJson))
  {
    var encode := JsonEncoder(isJson);
    forall p, q | encode(p) == Some(q) ensures encode(q) == Some(q) {
      CompactIsIdempotent(p);
    }
  }

  /** The trap is real: for any valid body that is not tight, a crash between the two links
      leaves files from which no redelivery is ever accepted. */
  lemma UntightBodyCanBeLost(isJson: string -> bool, d: Delivery)
    requires forall p :: isJson(p) ==> isJson(Compact(p))
    requires Complete(d) && isJson(d.payload) && !Tight(Outside, d.payload)
    ensures var encode := JsonEncoder(isJson);
            && AtomicPersist(encode, NO_FILES, d).0
            && exists k: nat :: forall t: int ::
                 !AtomicPersist(encode, Solo(encode, NO_FILES, d, k).0, d.(receivedAt := t)).0
  {
    var encode := JsonEncoder(isJson);
    JsonEncoderIsStable(isJson);
    FixedExactlyWhenTight(d.payload);
    SoloFreshPath(encode, NO_FILES, d);
    var g := Solo(encode, NO_FILES, d, 3).0;
    forall t: int ensures !AtomicPersist(encode, g, d.(receivedAt := t)).0 {
      WindowRejectsRetry(encode, NO_FILES, d, t);
    }
    WindowRejectsRetry(encode, NO_FILES, d, 0);
  }
}
