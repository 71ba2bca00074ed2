/**
 * The application/x-www-form-urlencoded serializer of the WHATWG URL Standard
 * (section 5.2), as URLSearchParams.toString() applies it: each name and value
 * goes through the byte serializer, names and values are joined by "=", and the
 * pairs by "&". The byte serializer itself (percent-encoding of UTF-8) is a
 * parameter. The parser of section 5.1 is given for the round trip: it
 * splits at "&", skips empty parts, splits each part at its first "=", and
 * decodes name and value with a parameter (the "+" to space replacement and
 * percent-decoding).
 */
module FormEncoding {

  /** Joins the parts with the separator between consecutive parts. */
  function Join(parts: seq<string>, sep: char): string
  {
    if |parts| == 0 then ""
    else if |parts| == 1 then parts[0]
    else parts[0] + [sep] + Join(parts[1..], sep)
  }

  /** Splits s at every occurrence of the separator; there is always at least one part. */
  function Split(s: string, sep: char): (r: seq<string>)
    ensures |r| >= 1
  {
    if s == [] then [""]
    else
      var rest := Split(s[1..], sep);
      if s[0] == sep then [""] + rest else [[s[0]] + rest[0]] + rest[1..]
  }

  lemma {:induction false} SplitWithoutSeparator(a: string, sep: char)
    requires sep !in a
    ensures Split(a, sep) == [a]
  {
    if a != [] {
      SplitWithoutSeparator(a[1..], sep);
      assert [a[0]] + a[1..] == a;
    }
  }

  lemma {:induction false} SplitAtFirstSeparator(a: string, b: string, sep: char)
    requires sep !in a
    ensures Split(a + [sep] + b, sep) == [a] + Split(b, sep)
  {
    if a == [] {
      assert a + [sep] + b == [sep] + b;
      assert ([sep] + b)[1..] == b;
    } else {
      SplitAtFirstSeparator(a[1..], b, sep);
      assert (a + [sep] + b)[1..] == a[1..] + [sep] + b;
      assert [a[0]] + a[1..] == a;
    }
  }

  /** Splitting a join gives the parts back when no part contains the separator. */
  lemma {:induction false} SplitJoin(parts: seq<string>, sep: char)
    requires |parts| >= 1
    requires forall i :: 0 <= i < |parts| ==> sep !in parts[i]
    ensures Split(Join(parts, sep), sep) == parts
  {
    if |parts| == 1 {
      SplitWithoutSeparator(parts[0], sep);
    } else {
      SplitJoin(parts[1..], sep);
      SplitAtFirstSeparator(parts[0], Join(parts[1..], sep), sep);
      assert [parts[0]] + parts[1..] == parts;
    }
  }

  /** Splits a "name=value" string at its first "="; without one, the value is empty. */
  function SplitPair(s: string): (string, string)
  {
    if s == [] then ("", "")
    else if s[0] == '=' then ("", s[1..])
    else
      var p := SplitPair(s[1..]);
      ([s[0]] + p.0, p.1)
  }

  lemma {:induction false} SplitPairAt(name: string, value: string)
    requires '=' !in name
    ensures SplitPair(name + "=" + value) == (name, value)
  {
    if name == [] {
      assert name + "=" + value == "=" + value;
      assert ("=" + value)[1..] == value;
    } else {
      SplitPairAt(name[1..], value);
      assert (name + "=" + value)[1..] == name[1..] + "=" + value;
      assert [name[0]] + name[1..] == name;
    }
  }

  function EncodePair(p: (string, string), encode: string -> string): string {
    encode(p.0) + "=" + encode(p.1)
  }

  function EncodePairs(pairs: seq<(string, string)>, encode: string -> string): (r: seq<string>)
    ensures |r| == |pairs|
    ensures forall i :: 0 <= i < |pairs| ==> r[i] == EncodePair(pairs[i], encode)
  {
    if |pairs| == 0 then [] else [EncodePair(pairs[0], encode)] + EncodePairs(pairs[1..], encode)
  }

  /** URLSearchParams.toString() over the given name/value list, in list order. */
  function Serialize(pairs: seq<(string, string)>, encode: string -> string): string {
    Join(EncodePairs(pairs, encode), '&')
  }

  function DecodePairs(parts: seq<string>, decode: string -> string): (r: seq<(string, string)>)
    ensures |r| == |parts|
    ensures forall i :: 0 <= i < |parts| ==>
      r[i] == (decode(SplitPair(parts[i]).0), decode(SplitPair(parts[i]).1))
  {
    if |parts| == 0 then []
    else
      var p := SplitPair(parts[0]);
      [(decode(p.0), decode(p.1))] + DecodePairs(parts[1..], decode)
  }

  /** The parts that are not empty, in order. */
  function NonEmpty(parts: seq<string>): (r: seq<string>)
    ensures |r| <= |parts|
    ensures forall i :: 0 <= i < |r| ==> r[i] != ""
    ensures forall x :: x in r <==> x in parts && x != ""
  {
    if |parts| == 0 then []
    else if parts[0] == "" then NonEmpty(parts[1..])
    else [parts[0]] + NonEmpty(parts[1..])
  }

  lemma {:induction false} NonEmptyKeepsNonEmptyParts(parts: seq<string>)
    requires forall i :: 0 <= i < |parts| ==> parts[i] != ""
    ensures NonEmpty(parts) == parts
  {
    if |parts| > 0 {
      NonEmptyKeepsNonEmptyParts(parts[1..]);
      assert [parts[0]] + parts[1..] == parts;
    }
  }

  /** The form parser: split at "&", drop empty parts, then each part at its first "=", then decode. */
  function Parse(body: string, decode: string -> string): seq<(string, string)> {
    DecodePairs(NonEmpty(Split(body, '&')), decode)
  }

  /** Empty sequences between separators yield no pairs: "&" and "" parse to nothing. */
  lemma ParseSkipsEmptyParts(decode: string -> string)
    ensures Parse("&", decode) == []
    ensures Parse("", decode) == []
  {
    assert Split("&", '&') == ["", ""] by {
      assert Split("", '&') == [""];
      assert "&"[1..] == "";
    }
  }

  /**
   * Parsing a serialized list returns the list, in order, when the byte
   * serializer never emits "&" or "=" (it percent-encodes both) and the
   * decoder undoes it. Every serialized pair contains "=", so no part is
   * dropped as empty.
   */
  lemma SerializeParseRoundTrip(pairs: seq<(string, string)>, encode: string -> string, decode: string -> string)
    requires forall x :: '&' !in encode(x) && '=' !in encode(x)
    requires forall x :: decode(encode(x)) == x
    ensures Parse(Serialize(pairs, encode), decode) == pairs
  {
    if |pairs| == 0 {
      ParseSkipsEmptyParts(decode);
      return;
    }
    var parts := EncodePairs(pairs, encode);
    forall i | 0 <= i < |parts| ensures '&' !in parts[i] && parts[i] != "" {
      assert parts[i] == encode(pairs[i].0) + "=" + encode(pairs[i].1);
      assert parts[i][|encode(pairs[i].0)|] == '=';
    }
    SplitJoin(parts, '&');
    NonEmptyKeepsNonEmptyParts(parts);
    forall i | 0 <= i < |pairs| ensures SplitPair(parts[i]) == (encode(pairs[i].0), encode(pairs[i].1)) {
      SplitPairAt(encode(pairs[i].0), encode(pairs[i].1));
    }
  }
}
