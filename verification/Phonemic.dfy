/**
 @p spelling of byte strings (core/src/phonemic.rs).

 The printer and the parser are proved to undo each other for any tables that are each
 other's inverse; the tables the program uses are.
 */
module Phonemic {
  import opened Syllables

  datatype Option<T> = None | Some(value: T)

  /** The tables, the reverse tables, which give -1 for what is not in them, and the
      standard library's lower-casing. */
  datatype Tables = Tables(prefix: Byte -> string, suffix: Byte -> string, prefixIndex: string -> int, suffixIndex: string -> int,
                           lower: string -> string)

  function TablesWith(lower: string -> string): Tables { Tables(Prefix, Suffix, PrefixIndex, SuffixIndex, lower) }

  /** Syllables are three lower-case letters, and lookup is the inverse of the table. */
  ghost predicate Inverse(table: Byte -> string, index: string -> int) {
    && (forall b: Byte :: IsSyllable(table(b)) && index(table(b)) == b)
    && (forall s, b: Byte :: index(s) == b ==> table(b) == s)
  }

  predicate IsAscii(s: string) { forall i :: 0 <= i < |s| ==> s[i] < 128 as char }

  function LowerChar(c: char): char {
    if 'A' <= c <= 'Z' then (c as int + 32) as char else c
  }

  /** Lower-casing of ASCII text. */
  function Lower(s: string): (r: string)
    ensures |r| == |s| && forall i :: 0 <= i < |s| ==> r[i] == LowerChar(s[i])
  {
    if s == "" then "" else Lower(s[..|s| - 1]) + [LowerChar(s[|s| - 1])]
  }

  /** Nothing is known of how text that is not ASCII is lower-cased: it may even become ASCII. */
  ghost predicate LowersAscii(lower: string -> string) { forall s :: IsAscii(s) ==> lower(s) == Lower(s) }

  ghost predicate Lawful(t: Tables) {
    Inverse(t.prefix, t.prefixIndex) && Inverse(t.suffix, t.suffixIndex) && LowersAscii(t.lower)
  }

  lemma PrefixesInvert()
    ensures Inverse(Prefix, PrefixIndex)
  {
    forall b: Byte ensures IsSyllable(Prefix(b)) && PrefixIndex(Prefix(b)) == b { PrefixRoundTrip(b); }
    forall s, b: Byte | PrefixIndex(s) == b ensures Prefix(b) == s { PrefixLookup(s); }
  }

  lemma SuffixesInvert()
    ensures Inverse(Suffix, SuffixIndex)
  {
    forall b: Byte ensures IsSyllable(Suffix(b)) && SuffixIndex(Suffix(b)) == b { SuffixRoundTrip(b); }
    forall s, b: Byte | SuffixIndex(s) == b ensures Suffix(b) == s { SuffixLookup(s); }
  }

  /** Both tables are free of duplicates: each has its reverse table as inverse. */
  lemma TablesAreLawful(lower: string -> string)
    requires LowersAscii(lower)
    ensures Lawful(TablesWith(lower))
  {
    PrefixesInvert();
    SuffixesInvert();
  }

  // ---- printing ----

  function Pairs(bytes: seq<Byte>, t: Tables): seq<string>
    requires |bytes| % 2 == 0
  {
    if bytes == [] then []
    else Pairs(bytes[..|bytes| - 2], t) + [t.prefix(bytes[|bytes| - 2]) + t.suffix(bytes[|bytes| - 1])]
  }

  function Join(parts: seq<string>): string {
    if parts == [] then ""
    else if |parts| == 1 then parts[0]
    else Join(parts[..|parts| - 1]) + "-" + parts[|parts| - 1]
  }

  /** Nothing for no bytes, and nothing for a trailing odd byte. */
  function ToOb(bytes: seq<Byte>, t: Tables): Option<string> {
    if bytes == [] || |bytes| % 2 != 0 then None else Some(Join(Pairs(bytes, t)))
  }

  // ---- parsing ----

  function Split(s: string): (parts: seq<string>)
    ensures |parts| >= 1
  {
    if s == "" then [""]
    else
      var front := Split(s[..|s| - 1]);
      var last := |front| - 1;
      if s[|s| - 1] == '-' then front + [""] else front[last := front[last] + [s[|s| - 1]]]
  }

  function NonEmpty(parts: seq<string>): seq<string> {
    if parts == [] then []
    else
      var front := NonEmpty(parts[..|parts| - 1]);
      if parts[|parts| - 1] == "" then front else front + [parts[|parts| - 1]]
  }

  function DecodePart(part: string, t: Tables): Option<seq<Byte>> {
    if |part| != 6 || !IsAscii(part) then None
    else
      var hi, lo := t.prefixIndex(part[..3]), t.suffixIndex(part[3..]);
      if 0 <= hi < 256 && 0 <= lo < 256 then Some([hi, lo]) else None
  }

  function DecodeParts(parts: seq<string>, t: Tables): Option<seq<Byte>> {
    if parts == [] then Some([])
    else
      var front, last := DecodeParts(parts[..|parts| - 1], t), DecodePart(parts[|parts| - 1], t);
      if front.Some? && last.Some? then Some(front.value + last.value) else None
  }

  /** The syllables of an input, in any case and with any dashes around them. */
  function Parts(s: string, t: Tables): seq<string> { NonEmpty(Split(t.lower(s))) }

  function FromOb(s: string, t: Tables): Option<seq<Byte>> {
    if Parts(s, t) == [] then None else DecodeParts(Parts(s, t), t)
  }

  /** The parser's loop over the parts. */
  method ParseOb(s: string, t: Tables) returns (r: Option<seq<Byte>>)
    ensures r == FromOb(s, t)
  {
    var lowered := t.lower(s);
    var parts := NonEmpty(Split(lowered));
    if parts == [] { return None; }
    var out: seq<Byte> := [];
    for i := 0 to |parts|
      invariant DecodeParts(parts[..i], t) == Some(out)
    {
      assert parts[..i + 1][..i] == parts[..i];
      var pair := DecodePart(parts[i], t);
      if pair.None? { FailsAll(parts, i + 1, t); return None; }
      out := out + pair.value;
    }
    assert parts[..|parts|] == parts;
    r := Some(out);
  }

  lemma {:induction false} FailsAll(parts: seq<string>, n: nat, t: Tables)
    requires n <= |parts| && DecodeParts(parts[..n], t).None?
    ensures DecodeParts(parts, t).None?
    decreases |parts|
  {
    if n == |parts| {
      assert parts[..n] == parts;
    } else {
      assert parts[..|parts| - 1][..n] == parts[..n];
      FailsAll(parts[..|parts| - 1], n, t);
    }
  }

  // ---- one syllable pair ----

  predicate Dashless(s: string) { forall i :: 0 <= i < |s| ==> s[i] != '-' }

  lemma PairDecodes(hi: Byte, lo: Byte, t: Tables)
    requires Lawful(t)
    ensures var part := t.prefix(hi) + t.suffix(lo);
      DecodePart(part, t) == Some([hi, lo]) && Dashless(part) && part != ""
  {
    var a, b := t.prefix(hi), t.suffix(lo);
    assert IsSyllable(a) && IsSyllable(b);
    assert (a + b)[..3] == a && (a + b)[3..] == b;
  }

  lemma PartPrints(part: string, t: Tables)
    requires Lawful(t) && DecodePart(part, t).Some?
    ensures var b := DecodePart(part, t).value; |b| == 2 && t.prefix(b[0]) + t.suffix(b[1]) == part
  {
    assert part == part[..3] + part[3..];
  }

  // ---- splitting undoes joining ----

  ghost predicate Plain(parts: seq<string>) {
    forall i :: 0 <= i < |parts| ==> Dashless(parts[i]) && parts[i] != ""
  }

  lemma SplitSnoc(s: string, c: char)
    ensures var front := Split(s); var last := |front| - 1;
      Split(s + [c]) == if c == '-' then front + [""] else front[last := front[last] + [c]]
  {
    assert (s + [c])[..|s|] == s;
  }

  lemma {:induction false} SplitPiece(s: string, p: string)
    requires Dashless(p)
    ensures var front := Split(s); var last := |front| - 1; Split(s + p) == front[last := front[last] + p]
  {
    var front := Split(s);
    var last := |front| - 1;
    if p == "" {
      assert s + p == s && front[last] + p == front[last];
    } else {
      var q, c := p[..|p| - 1], p[|p| - 1];
      SplitPiece(s, q);
      SplitSnoc(s + q, c);
      assert p == q + [c] && s + p == (s + q) + [c];
      assert (front[last] + q) + [c] == front[last] + p;
    }
  }

  lemma SplitNext(s: string, p: string)
    requires Dashless(p)
    ensures Split(s + "-" + p) == Split(s) + [p]
  {
    SplitSnoc(s, '-');
    SplitPiece(s + "-", p);
    assert "" + p == p;
  }

  lemma {:induction false} SplitJoin(parts: seq<string>)
    requires Plain(parts) && parts != []
    ensures Split(Join(parts)) == parts
  {
    if |parts| == 1 {
      SplitPiece("", parts[0]);
      assert "" + parts[0] == parts[0];
      assert parts == [parts[0]];
    } else {
      var front, p := parts[..|parts| - 1], parts[|parts| - 1];
      SplitJoin(front);
      SplitNext(Join(front), p);
      assert parts == front + [p];
    }
  }

  lemma {:induction false} PlainStays(parts: seq<string>)
    requires Plain(parts)
    ensures NonEmpty(parts) == parts
  {
    if parts != [] {
      PlainStays(parts[..|parts| - 1]);
      assert parts == parts[..|parts| - 1] + [parts[|parts| - 1]];
    }
  }

  lemma DecodeSnoc(parts: seq<string>, part: string, t: Tables)
    requires DecodeParts(parts, t).Some? && DecodePart(part, t).Some?
    ensures DecodeParts(parts + [part], t) == Some(DecodeParts(parts, t).value + DecodePart(part, t).value)
  {
    assert (parts + [part])[..|parts|] == parts;
  }

  lemma {:induction false} PairsDecode(bytes: seq<Byte>, t: Tables)
    requires Lawful(t) && |bytes| % 2 == 0
    ensures Plain(Pairs(bytes, t)) && DecodeParts(Pairs(bytes, t), t) == Some(bytes)
    decreases |bytes|
  {
    if bytes != [] {
      PairsDecode(bytes[..|bytes| - 2], t);
      LastPairDecodes(bytes, t);
    }
  }

  lemma PlainSnoc(parts: seq<string>, part: string)
    requires Plain(parts) && Dashless(part) && part != ""
    ensures Plain(parts + [part])
  {
  }

  lemma LastPairDecodes(bytes: seq<Byte>, t: Tables)
    requires Lawful(t) && |bytes| % 2 == 0 && bytes != []
    requires var front := bytes[..|bytes| - 2]; Plain(Pairs(front, t)) && DecodeParts(Pairs(front, t), t) == Some(front)
    ensures Plain(Pairs(bytes, t)) && DecodeParts(Pairs(bytes, t), t) == Some(bytes)
  {
    var front, hi, lo := bytes[..|bytes| - 2], bytes[|bytes| - 2], bytes[|bytes| - 1];
    PairDecodes(hi, lo, t);
    DecodeSnoc(Pairs(front, t), t.prefix(hi) + t.suffix(lo), t);
    PlainSnoc(Pairs(front, t), t.prefix(hi) + t.suffix(lo));
    assert bytes == front + [hi, lo];
  }

  predicate NoCapitals(s: string) { IsAscii(s) && forall i :: 0 <= i < |s| ==> LowerChar(s[i]) == s[i] }

  lemma {:induction false} JoinLower(parts: seq<string>)
    requires forall i :: 0 <= i < |parts| ==> NoCapitals(parts[i])
    ensures NoCapitals(Join(parts))
  {
    if |parts| > 1 { JoinLower(parts[..|parts| - 1]); }
  }

  lemma {:induction false} PairsLower(bytes: seq<Byte>, t: Tables)
    requires Lawful(t) && |bytes| % 2 == 0
    ensures forall i :: 0 <= i < |Pairs(bytes, t)| ==> NoCapitals(Pairs(bytes, t)[i])
  {
    if bytes != [] {
      PairsLower(bytes[..|bytes| - 2], t);
      assert IsSyllable(t.prefix(bytes[|bytes| - 2])) && IsSyllable(t.suffix(bytes[|bytes| - 1]));
    }
  }

  /** A spelling is lower-case ASCII, so lower-casing leaves it, and each casing of it
      becomes it. */
  lemma SpellingIsLower(bytes: seq<Byte>, s: string, t: Tables)
    requires Lawful(t) && ToOb(bytes, t).Some? && Lower(s) == Lower(ToOb(bytes, t).value)
    ensures t.lower(s) == ToOb(bytes, t).value
  {
    var ob := ToOb(bytes, t).value;
    PairsLower(bytes, t);
    JoinLower(Pairs(bytes, t));
    assert Lower(ob) == ob;
    forall i | 0 <= i < |s| ensures s[i] < 128 as char { assert Lower(s)[i] == ob[i]; }
  }

  /** The spelling in any mix of ASCII upper and lower case is parsed back. */
  lemma AnyCasing(bytes: seq<Byte>, s: string, t: Tables)
    requires Lawful(t) && ToOb(bytes, t).Some? && Lower(s) == Lower(ToOb(bytes, t).value)
    ensures FromOb(s, t) == Some(bytes)
  {
    SpellingIsLower(bytes, s, t);
    PairsDecode(bytes, t);
    SplitJoin(Pairs(bytes, t));
    PlainStays(Pairs(bytes, t));
  }

  /** What is printed is parsed back, and only an empty or odd input has no spelling. */
  lemma RoundTrip(bytes: seq<Byte>, t: Tables)
    requires Lawful(t)
    ensures ToOb(bytes, t).Some? <==> bytes != [] && |bytes| % 2 == 0
    ensures ToOb(bytes, t).Some? ==> FromOb(ToOb(bytes, t).value, t) == Some(bytes)
  {
    if ToOb(bytes, t).Some? { AnyCasing(bytes, ToOb(bytes, t).value, t); }
  }

  /** No two byte strings share a spelling. */
  lemma Injective(a: seq<Byte>, b: seq<Byte>, t: Tables)
    requires Lawful(t) && ToOb(a, t).Some? && ToOb(a, t) == ToOb(b, t)
    ensures a == b
  {
    RoundTrip(a, t);
    RoundTrip(b, t);
  }

  // ---- one canonical spelling ----

  lemma {:induction false} PartsPrint(parts: seq<string>, t: Tables)
    requires Lawful(t) && DecodeParts(parts, t).Some?
    ensures var b := DecodeParts(parts, t).value; |b| == 2 * |parts| && Pairs(b, t) == parts
  {
    if parts != [] {
      var front, part := parts[..|parts| - 1], parts[|parts| - 1];
      PartsPrint(front, t);
      PartPrints(part, t);
      var f, p := DecodeParts(front, t).value, DecodePart(part, t).value;
      assert (f + p)[..|f + p| - 2] == f;
      assert parts == front + [part];
    }
  }

  /** Re-printing what was accepted gives the input's syllables with single dashes between
      them, and that spelling is accepted as the same bytes. */
  lemma Canonical(s: string, t: Tables)
    requires Lawful(t) && FromOb(s, t).Some?
    ensures var b := FromOb(s, t).value;
      ToOb(b, t) == Some(Join(Parts(s, t))) && FromOb(ToOb(b, t).value, t) == Some(b)
  {
    PartsPrint(Parts(s, t), t);
    RoundTrip(FromOb(s, t).value, t);
  }

  /** The program's tables: two accepted inputs that mean the same bytes are re-printed the
      same, so every key has exactly one canonical spelling. */
  lemma OneSpelling(s: string, s': string, lower: string -> string)
    requires LowersAscii(lower)
    requires FromOb(s, TablesWith(lower)).Some? && FromOb(s', TablesWith(lower)).Some?
    ensures var t := TablesWith(lower); FromOb(s, t) == FromOb(s', t) <==> Join(Parts(s, t)) == Join(Parts(s', t))
  {
    TablesAreLawful(lower);
    Canonical(s, TablesWith(lower));
    Canonical(s', TablesWith(lower));
  }
}
