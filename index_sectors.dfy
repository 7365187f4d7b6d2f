/** IndexSectorsQueryParams.upper_symbol: the validator that normalises the
    symbol field of an index-sectors query. A single symbol is upper-cased; a
    list or set of symbols is upper-cased element by element and joined with
    commas. Only ASCII letters are upper-cased; every other character is kept. */
module IndexSectors {

  /** The separator of symbols in the joined form. */
  const COMMA: char := ','

  predicate IsLower(c: char) {
    'a' <= c <= 'z'
  }

  /** ASCII upper-casing of one character: a-z become A-Z, every other character is kept. */
  function UpperChar(c: char): (u: char)
    ensures !IsLower(u)
    ensures IsLower(c) ==> 'A' <= u <= 'Z' && u as int - 'A' as int == c as int - 'a' as int
    ensures !IsLower(c) ==> u == c
  {
    if IsLower(c) then (c as int - 'a' as int + 'A' as int) as char else c
  }

  /** str.upper on an ASCII string. */
  function Upper(s: string): (r: string)
    ensures |r| == |s|
    ensures forall i :: 0 <= i < |s| ==> r[i] == UpperChar(s[i])
  {
    if |s| == 0 then "" else [UpperChar(s[0])] + Upper(s[1..])
  }

  /** The string holds no lower-case ASCII letter. */
  predicate NoLower(s: string) {
    forall i :: 0 <= i < |s| ==> !IsLower(s[i])
  }

  /** [symbol.upper() for symbol in symbols]. */
  function UpperAll(symbols: seq<string>): (r: seq<string>)
    ensures |r| == |symbols|
    ensures forall i :: 0 <= i < |symbols| ==> r[i] == Upper(symbols[i])
  {
    if |symbols| == 0 then [] else [Upper(symbols[0])] + UpperAll(symbols[1..])
  }

  /** ",".join(parts). */
  function Join(parts: seq<string>): (r: string)
    ensures |parts| == 0 ==> r == ""
    ensures |parts| == 1 ==> r == parts[0]
  {
    if |parts| == 0 then ""
    else if |parts| == 1 then parts[0]
    else parts[0] + [COMMA] + Join(parts[1..])
  }

  /** str.split(","): the pieces between commas; never empty, as in Python. */
  function Split(s: string): (r: seq<string>)
    ensures |r| >= 1
  {
    if |s| == 0 then [""]
    else if s[0] == COMMA then [""] + Split(s[1..])
    else var rest := Split(s[1..]); [[s[0]] + rest[0]] + rest[1..]
  }

  /** The value handed to the validator: a plain string, or a list or set of
      strings (a set is given in its iteration order). */
  datatype SymbolInput = Single(symbol: string) | Many(symbols: seq<string>)

  /** upper_symbol. */
  function UpperSymbol(v: SymbolInput): (r: string)
    ensures NoLower(r)
  {
    match v
    case Single(s) => Upper(s)
    case Many(symbols) =>
      JoinNoLower(UpperAll(symbols));
      Join(UpperAll(symbols))
  }

  /** Upper-cased strings never hold a lower-case letter, nor does their join. */
  lemma {:induction false} JoinNoLower(parts: seq<string>)
    requires forall i :: 0 <= i < |parts| ==> NoLower(parts[i])
    ensures NoLower(Join(parts))
  {
    if |parts| > 1 {
      JoinNoLower(parts[1..]);
      var tail := Join(parts[1..]);
      assert Join(parts) == parts[0] + [COMMA] + tail;
      forall i | 0 <= i < |Join(parts)| ensures !IsLower(Join(parts)[i]) {
        if i < |parts[0]| {
          assert Join(parts)[i] == parts[0][i];
        } else if i > |parts[0]| {
          assert Join(parts)[i] == tail[i - |parts[0]| - 1];
        }
      }
    }
  }

  /** Upper-casing distributes over concatenation. */
  lemma UpperConcat(a: string, b: string)
    ensures Upper(a + b) == Upper(a) + Upper(b)
  {
    assert forall i :: 0 <= i < |a + b| ==> Upper(a + b)[i] == (Upper(a) + Upper(b))[i];
  }

  /** The collection branch agrees with upper-casing the joined string (the
      comma is left alone by upper-casing). */
  lemma {:induction false} UpperSymbolManyIsUpperOfJoin(symbols: seq<string>)
    ensures UpperSymbol(Many(symbols)) == Upper(Join(symbols))
  {
    if |symbols| > 1 {
      UpperSymbolManyIsUpperOfJoin(symbols[1..]);
      assert UpperAll(symbols)[1..] == UpperAll(symbols[1..]);
      UpperConcat(symbols[0], [COMMA]);
      UpperConcat(symbols[0] + [COMMA], Join(symbols[1..]));
      assert Upper([COMMA]) == [COMMA];
    }
  }

  /** A single symbol is upper-cased character by character and keeps its length. */
  lemma UpperSymbolSingle(s: string)
    ensures |UpperSymbol(Single(s))| == |s|
    ensures forall i :: 0 <= i < |s| ==> UpperSymbol(Single(s))[i] == UpperChar(s[i])
  {
  }

  /** A one-element collection gives the same result as the plain string. */
  lemma UpperSymbolSingleton(s: string)
    ensures UpperSymbol(Many([s])) == UpperSymbol(Single(s))
  {
  }

  /** An empty collection gives the empty string. */
  lemma UpperSymbolEmpty()
    ensures UpperSymbol(Many([])) == ""
  {
  }

  /** Upper-casing twice is upper-casing once. */
  lemma UpperIdempotent(s: string)
    ensures Upper(Upper(s)) == Upper(s)
  {
    assert forall i :: 0 <= i < |s| ==> Upper(Upper(s))[i] == Upper(s)[i];
  }

  /** upper_symbol leaves its own output unchanged, in both branches. */
  lemma UpperSymbolIdempotent(v: SymbolInput)
    ensures UpperSymbol(Single(UpperSymbol(v))) == UpperSymbol(v)
  {
    var r := UpperSymbol(v);
    assert forall i :: 0 <= i < |r| ==> UpperChar(r[i]) == r[i];
    assert Upper(r) == r;
  }

  /** A string without commas splits into itself. */
  lemma {:induction false} SplitNoComma(s: string)
    requires COMMA !in s
    ensures Split(s) == [s]
  {
    if |s| > 0 {
      SplitNoComma(s[1..]);
      assert [s[0]] + s[1..] == s;
    }
  }

  /** Splitting "x,rest" gives x followed by the pieces of rest, when x has no comma. */
  lemma {:induction false} SplitAfterPiece(x: string, rest: string)
    requires COMMA !in x
    ensures Split(x + [COMMA] + rest) == [x] + Split(rest)
  {
    if |x| == 0 {
      assert x + [COMMA] + rest == [COMMA] + rest;
      assert ([COMMA] + rest)[1..] == rest;
    } else {
      SplitAfterPiece(x[1..], rest);
      var s := x + [COMMA] + rest;
      assert s[0] == x[0];
      assert s[1..] == x[1..] + [COMMA] + rest;
      assert [x[0]] + x[1..] == x;
    }
  }

  /** Joining at least one comma-free piece and splitting again gives the pieces back. */
  lemma {:induction false} SplitJoin(parts: seq<string>)
    requires |parts| > 0
    requires forall i :: 0 <= i < |parts| ==> COMMA !in parts[i]
    ensures Split(Join(parts)) == parts
  {
    if |parts| == 1 {
      SplitNoComma(parts[0]);
    } else {
      SplitJoin(parts[1..]);
      SplitAfterPiece(parts[0], Join(parts[1..]));
    }
  }

  /** Upper-casing neither creates nor removes commas. */
  lemma UpperKeepsCommas(s: string)
    ensures COMMA in Upper(s) <==> COMMA in s
  {
    if COMMA in Upper(s) {
      var i :| 0 <= i < |s| && Upper(s)[i] == COMMA;
      assert s[i] == COMMA;
    }
    if COMMA in s {
      var i :| 0 <= i < |s| && s[i] == COMMA;
      assert Upper(s)[i] == COMMA;
    }
  }

  /** When no symbol holds a comma, splitting the output on commas gives back
      the upper-cased symbols, in order and as many as there were. */
  lemma SplitUpperSymbol(symbols: seq<string>)
    requires |symbols| > 0
    requires forall i :: 0 <= i < |symbols| ==> COMMA !in symbols[i]
    ensures Split(UpperSymbol(Many(symbols))) == UpperAll(symbols)
    ensures |Split(UpperSymbol(Many(symbols)))| == |symbols|
  {
    var uppers := UpperAll(symbols);
    forall i | 0 <= i < |uppers| ensures COMMA !in uppers[i] {
      UpperKeepsCommas(symbols[i]);
    }
    SplitJoin(uppers);
  }
}
