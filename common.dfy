/** The usual optional value. */
module Optional {
  datatype Option<+T> = None | Some(value: T)
}

/**
 * The JSON-like values the chatbot and the document tools pass around
 * (tool arguments, document fields, tool results), with the closed set of
 * Python type tags the schema guard compares.
 */
module Values {

  /** A Python value as stored in a document or sent as a tool argument.
      Floats are opaque: the system never computes with them. */
  datatype Value =
    | Str(s: string)
    | Int(i: int)
    | Float(f: real)
    | Bool(b: bool)
    | List(items: seq<Value>)
    | Dict(entries: map<string, Value>)
    | Null
    | Other(typeName: string)   // any other Python type (datetime, ObjectId, ...)

  /** The exact Python type of a value, as `type(v)` gives it. `bool` and
      `int` are distinct tags, as `type(True) != type(1)` in Python. */
  datatype TypeTag =
    | StrType
    | IntType
    | FloatType
    | BoolType
    | ListType
    | DictType
    | OtherType(name: string)

  function TypeOf(v: Value): TypeTag {
    match v
    case Str(_) => StrType
    case Int(_) => IntType
    case Float(_) => FloatType
    case Bool(_) => BoolType
    case List(_) => ListType
    case Dict(_) => DictType
    case Null => OtherType("NoneType")
    case Other(n) => OtherType(n)
  }

  /** `type(v).__name__` */
  function TypeName(t: TypeTag): string {
    match t
    case StrType => "str"
    case IntType => "int"
    case FloatType => "float"
    case BoolType => "bool"
    case ListType => "list"
    case DictType => "dict"
    case OtherType(n) => n
  }

  /** Python truthiness (`bool(v)`); objects of other types are truthy. */
  predicate Truthy(v: Value) {
    match v
    case Str(s) => s != ""
    case Int(i) => i != 0
    case Float(f) => f != 0.0
    case Bool(b) => b
    case List(items) => items != []
    case Dict(entries) => entries != map[]
    case Null => false
    case Other(_) => true
  }
}

/** The few Python string operations the core relies on. */
module Strings {
  import opened Optional

  /** The characters Python's `str.isspace()` accepts; `str.split()` and
      `str.strip()` without arguments use exactly these. */
  predicate IsSpace(c: char) {
    || c == ' '
    || ('\U{9}' <= c <= '\U{D}')
    || ('\U{1C}' <= c <= '\U{1F}')
    || c == '\U{85}' || c == '\U{A0}' || c == '\U{1680}'
    || ('\U{2000}' <= c <= '\U{200A}')
    || c == '\U{2028}' || c == '\U{2029}' || c == '\U{202F}' || c == '\U{205F}' || c == '\U{3000}'
  }

  predicate NoSpace(s: string) {
    forall i :: 0 <= i < |s| ==> !IsSpace(s[i])
  }

  predicate AllSpace(s: string) {
    forall i :: 0 <= i < |s| ==> IsSpace(s[i])
  }

  predicate StartsWith(s: string, prefix: string) {
    |prefix| <= |s| && s[..|prefix|] == prefix
  }

  /** ASCII lower-casing. Every comparison in the core lower-cases a whole
      string and compares it with an ASCII literal of lower-case letters,
      `/` and space. Python's full Unicode `lower()` gives the same verdict:
      the only non-ASCII characters it lowers to ASCII letters are the
      Kelvin sign (to `k`, which no literal holds) and the dotted capital I
      (to `i` followed by a combining dot, which no literal holds). */
  function LowerChar(c: char): char {
    if 'A' <= c <= 'Z' then (c as int + 32) as char else c
  }

  function Lower(s: string): (r: string)
    ensures |r| == |s|
    ensures forall i :: 0 <= i < |s| ==> r[i] == LowerChar(s[i])
  {
    seq(|s|, i requires 0 <= i < |s| => LowerChar(s[i]))
  }

  /** The index of the first occurrence of `c` in `s` (`s.find(c)`). */
  function IndexOf(s: string, c: char): (r: Option<nat>)
    ensures r.None? <==> c !in s
    ensures r.Some? ==> r.value < |s| && s[r.value] == c && c !in s[..r.value]
    decreases |s|
  {
    if s == [] then None
    else if s[0] == c then Some(0)
    else match IndexOf(s[1..], c)
      case None => None
      case Some(i) =>
        assert s[..i + 1] == [s[0]] + s[1..][..i];
        Some(i + 1)
  }

  /** `s.split(sep, 1)` when `sep` occurs in `s`: the text before and after
      its first occurrence; None when it does not occur. */
  function SplitOnce(s: string, sep: char): (r: Option<(string, string)>)
    ensures r.None? <==> sep !in s
    ensures r.Some? ==> s == r.value.0 + [sep] + r.value.1 && sep !in r.value.0
  {
    match IndexOf(s, sep)
    case None => None
    case Some(i) =>
      assert s == s[..i] + [sep] + s[i + 1..];
      Some((s[..i], s[i + 1..]))
  }

  /** Number of leading non-space characters. */
  function TokenLength(s: string): (n: nat)
    ensures n <= |s|
    ensures NoSpace(s[..n])
    ensures n < |s| ==> IsSpace(s[n])
    decreases |s|
  {
    if s == [] || IsSpace(s[0]) then 0
    else
      var m := TokenLength(s[1..]);
      assert s[..m + 1] == [s[0]] + s[1..][..m];
      m + 1
  }

  /** The characters of `s` that are not whitespace, in order. */
  function NonSpace(s: string): string
    decreases |s|
  {
    if s == [] then [] else (if IsSpace(s[0]) then [] else [s[0]]) + NonSpace(s[1..])
  }

  function Concat(ws: seq<string>): string
    decreases |ws|
  {
    if ws == [] then [] else ws[0] + Concat(ws[1..])
  }

  /** `s.split()`: the maximal runs of non-whitespace characters. */
  function Words(s: string): (ws: seq<string>)
    ensures forall i :: 0 <= i < |ws| ==> ws[i] != [] && NoSpace(ws[i])
    ensures Concat(ws) == NonSpace(s)
    decreases |s|
  {
    if s == [] then []
    else if IsSpace(s[0]) then
      assert NonSpace(s) == NonSpace(s[1..]);
      Words(s[1..])
    else
      var n := TokenLength(s);
      NonSpaceSplit(s, n);
      [s[..n]] + Words(s[n..])
  }

  /** A line laid out as leading whitespace `lead`, then each word of
      `parts` followed by its whitespace gap. */
  function Layout(lead: string, parts: seq<(string, string)>): string
    decreases |parts|
  {
    if parts == [] then lead
    else lead + parts[0].0 + Layout(parts[0].1, parts[1..])
  }

  /** The lead and the gaps are whitespace, every gap between two words is
      non-empty, and every word is non-empty and whitespace-free. */
  predicate WellSpaced(lead: string, parts: seq<(string, string)>) {
    && AllSpace(lead)
    && (forall i :: 0 <= i < |parts| ==> parts[i].0 != [] && NoSpace(parts[i].0) && AllSpace(parts[i].1))
    && (forall i :: 0 <= i < |parts| - 1 ==> parts[i].1 != [])
  }

  function WordsOf(parts: seq<(string, string)>): (ws: seq<string>)
    ensures |ws| == |parts| && forall i :: 0 <= i < |parts| ==> ws[i] == parts[i].0
  {
    seq(|parts|, i requires 0 <= i < |parts| => parts[i].0)
  }

  /** `split()` recovers the words of any whitespace layout, so it splits
      exactly at whitespace runs. */
  lemma {:induction false} WordsOfLayout(lead: string, parts: seq<(string, string)>)
    requires WellSpaced(lead, parts)
    ensures Words(Layout(lead, parts)) == WordsOf(parts)
    decreases |parts|, |lead|
  {
    if lead != [] {
      LeadingSpaceSkipped(lead, parts);
      WordsOfLayout(lead[1..], parts);
    } else if parts != [] {
      var rest := Layout(parts[0].1, parts[1..]);
      assert Layout(lead, parts) == parts[0].0 + rest;
      GapAfterWord(parts);
      WordThenGap(parts[0].0, rest);
      WordsOfLayout(parts[0].1, parts[1..]);
      assert WordsOf(parts) == [parts[0].0] + WordsOf(parts[1..]);
    }
  }

  /** `split()` skips a leading whitespace character. */
  lemma LeadingSpaceSkipped(lead: string, parts: seq<(string, string)>)
    requires lead != [] && WellSpaced(lead, parts)
    ensures WellSpaced(lead[1..], parts)
    ensures Words(Layout(lead, parts)) == Words(Layout(lead[1..], parts))
  {
    var s := Layout(lead, parts);
    var tail := Layout(lead[1..], parts);
    assert s == [lead[0]] + tail by {
      assert lead == [lead[0]] + lead[1..];
      if parts != [] {
        assert s == lead + (parts[0].0 + Layout(parts[0].1, parts[1..]));
        assert tail == lead[1..] + (parts[0].0 + Layout(parts[0].1, parts[1..]));
      }
    }
    assert IsSpace(s[0]) && s[1..] == tail;
  }

  /** What follows the first word of a layout is empty or starts with
      whitespace, and is itself a layout. */
  lemma GapAfterWord(parts: seq<(string, string)>)
    requires parts != [] && WellSpaced([], parts)
    ensures WellSpaced(parts[0].1, parts[1..])
    ensures var rest := Layout(parts[0].1, parts[1..]); rest == [] || IsSpace(rest[0])
  {
    var g := parts[0].1;
    if parts[1..] != [] {
      assert g != [] && Layout(g, parts[1..]) == g + (parts[1..][0].0 + Layout(parts[1..][0].1, parts[1..][1..]));
    }
    assert forall i :: 0 <= i < |parts[1..]| ==> parts[1..][i] == parts[i + 1];
  }

  /** `split()` takes a word whole, up to the whitespace after it. */
  lemma WordThenGap(w: string, rest: string)
    requires w != [] && NoSpace(w) && (rest == [] || IsSpace(rest[0]))
    ensures Words(w + rest) == [w] + Words(rest)
  {
    var s := w + rest;
    TokenLengthOfWord(w, rest);
    assert s[..|w|] == w && s[|w|..] == rest;
  }

  lemma TokenLengthOfWord(w: string, rest: string)
    requires w != [] && NoSpace(w) && (rest == [] || IsSpace(rest[0]))
    ensures TokenLength(w + rest) == |w|
  {
    var s := w + rest;
    var n := TokenLength(s);
    assert forall i :: 0 <= i < |w| ==> s[i] == w[i];
    assert |w| < |s| ==> s[|w|] == rest[0];
  }

  lemma {:induction false} NonSpaceOfNoSpace(s: string)
    requires NoSpace(s)
    ensures NonSpace(s) == s
    decreases |s|
  {
    if s != [] {
      NonSpaceOfNoSpace(s[1..]);
    }
  }

  lemma {:induction false} NonSpaceAppend(a: string, b: string)
    ensures NonSpace(a + b) == NonSpace(a) + NonSpace(b)
    decreases |a|
  {
    if a == [] {
      assert a + b == b;
    } else {
      assert (a + b)[0] == a[0];
      assert (a + b)[1..] == a[1..] + b;
      NonSpaceAppend(a[1..], b);
    }
  }

  lemma NonSpaceSplit(s: string, n: nat)
    requires n <= |s| && NoSpace(s[..n])
    ensures NonSpace(s) == s[..n] + NonSpace(s[n..])
  {
    assert s == s[..n] + s[n..];
    NonSpaceAppend(s[..n], s[n..]);
    NonSpaceOfNoSpace(s[..n]);
  }

  /** Number of leading whitespace characters. */
  function LeadingSpace(s: string): (n: nat)
    ensures n <= |s|
    ensures AllSpace(s[..n])
    ensures n < |s| ==> !IsSpace(s[n])
    decreases |s|
  {
    if s == [] || !IsSpace(s[0]) then 0
    else
      var m := LeadingSpace(s[1..]);
      assert s[..m + 1] == [s[0]] + s[1..][..m];
      m + 1
  }

  /** Number of trailing whitespace characters. */
  function TrailingSpace(s: string): (n: nat)
    ensures n <= |s|
    ensures AllSpace(s[|s| - n..])
    ensures n < |s| ==> !IsSpace(s[|s| - n - 1])
    decreases |s|
  {
    if s == [] || !IsSpace(s[|s| - 1]) then 0
    else
      var t := s[..|s| - 1];
      var m := TrailingSpace(t);
      assert s[|s| - (m + 1)..] == t[|t| - m..] + [s[|s| - 1]];
      m + 1
  }

  /** `s.strip()`: `s` without its leading and trailing whitespace. */
  function Strip(s: string): (r: string)
    ensures r == [] || (!IsSpace(r[0]) && !IsSpace(r[|r| - 1]))
    ensures exists a :: 0 <= a && a + |r| <= |s| && AllSpace(s[..a]) && s[a..a + |r|] == r && AllSpace(s[a + |r|..])
  {
    var a := LeadingSpace(s);
    var t := s[a..];
    var b := TrailingSpace(t);
    var r := t[..|t| - b];
    assert r != [] ==> r[0] == s[a] && r[|r| - 1] == t[|t| - b - 1];
    assert s[a..a + |r|] == r;
    assert s[a + |r|..] == t[|t| - b..];
    assert AllSpace(s[..a]) && AllSpace(s[a + |r|..]);
    r
  }

  /** `"\n".join(xs)`: the first string starts the result and the last one
      ends it. */
  function JoinLines(xs: seq<string>): (r: string)
    ensures xs == [] ==> r == ""
    ensures xs != [] ==> |xs[0]| <= |r| && r[..|xs[0]|] == xs[0]
    ensures xs != [] ==> |xs[|xs| - 1]| <= |r| && r[|r| - |xs[|xs| - 1]|..] == xs[|xs| - 1]
    decreases |xs|
  {
    if xs == [] then ""
    else if |xs| == 1 then xs[0]
    else JoinLines(xs[..|xs| - 1]) + "\n" + xs[|xs| - 1]
  }
}
