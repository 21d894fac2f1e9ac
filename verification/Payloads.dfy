/**
 Plaintext payloads (core/src/protocol.rs).

 A payload travels as JSON text. Printing and reading that text is foreign code, so the
 model keeps the JSON tree and the length of the text it prints to. Characters are
 Unicode scalar values.
 */
module Payloads {
  import opened Base64

  const MAX_BODY_LEN := 65536
  const MAX_DISPLAY_NAME_LEN := 128
  const MAX_BIO_LEN := 1024
  const MAX_PHOTO_LEN := 65536
  const MAX_ID_LEN := 128
  const MAX_ACK_IDS: nat := 1024
  const MAX_PLAINTEXT_LEN := 1024 * 1024

  datatype Option<T> = None | Some(value: T)

  datatype Json =
    | Null
    | Flag(b: bool)
    | Num(n: int)
    | Str(s: string)
    | Arr(items: seq<Json>)
    | Obj(fields: seq<Field>)

  datatype Field = Field(key: string, value: Json)

  datatype Payload =
    | Text(id: string, body: string)
    | Ack(ids: seq<string>)
    | Profile(name: Option<string>, bio: Option<string>, photo: Option<string>)

  datatype Parsed = Parsed(ts: int, payload: Payload)

  predicate IsI64(n: int) { -0x8000_0000_0000_0000 <= n < 0x8000_0000_0000_0000 }

  // ---- lengths ----

  function Utf8Len(c: char): nat {
    var n := c as int;
    if n < 0x80 then 1 else if n < 0x800 then 2 else if n < 0x1_0000 then 3 else 4
  }

  /** Bytes of a string in UTF-8. */
  function ByteLen(s: string): nat {
    if s == "" then 0 else ByteLen(s[..|s| - 1]) + Utf8Len(s[|s| - 1])
  }

  /** Bytes one character takes inside a JSON string: section 7 of RFC 8259 gives control
      characters a six-byte escape unless they have a two-byte one. */
  function EscapedLen(c: char): nat {
    if c == '\"' || c == '\\' || c as int in {8, 9, 10, 12, 13} then 2
    else if c as int < 0x20 then 6
    else Utf8Len(c)
  }

  function QuotedLen(s: string): nat {
    if s == "" then 2 else QuotedLen(s[..|s| - 1]) + EscapedLen(s[|s| - 1])
  }

  /** Bytes of the text a tree prints to, at most: an integer takes at most twenty. */
  function TextLen(j: Json): nat
    decreases j, 1
  {
    match j
    case Null => 4
    case Flag(_) => 5
    case Num(_) => 20
    case Str(s) => QuotedLen(s)
    case Arr(items) => 2 + ItemsLen(items)
    case Obj(fields) => 2 + FieldsLen(fields)
  }

  function ItemsLen(items: seq<Json>): nat
    decreases items, 0
  {
    if items == [] then 0 else ItemsLen(items[..|items| - 1]) + TextLen(items[|items| - 1]) + 1
  }

  function FieldsLen(fields: seq<Field>): nat
    decreases fields, 0
  {
    if fields == [] then 0
    else
      var last := fields[|fields| - 1];
      FieldsLen(fields[..|fields| - 1]) + QuotedLen(last.key) + TextLen(last.value) + 2
  }

  lemma {:induction false} QuotedBound(s: string)
    ensures QuotedLen(s) <= 2 + 6 * ByteLen(s)
    ensures QuotedLen(s) <= 2 + 6 * |s|
  {
    if s != "" { QuotedBound(s[..|s| - 1]); }
  }

  // ---- sanitising ----

  /** Characters a reader never shows: controls but tab, newline and return, the
      bidirectional controls, and the zero-width ones. */
  predicate Invisible(c: char) {
    var n := c as int;
    || (n <= 0x1F && n != 0x09 && n != 0x0A && n != 0x0D)
    || n == 0x200E || n == 0x200F || 0x202A <= n <= 0x202E || 0x2066 <= n <= 0x2069
    || n == 0x200B || n == 0x200C || n == 0x200D || n == 0xFEFF
  }

  function Sanitize(s: string): string {
    if s == "" then ""
    else
      var front := Sanitize(s[..|s| - 1]);
      if Invisible(s[|s| - 1]) then front else front + [s[|s| - 1]]
  }

  lemma ByteSnoc(front: string, c: char)
    ensures ByteLen(front + [c]) == ByteLen(front) + Utf8Len(c)
  {
    assert (front + [c])[..|front|] == front;
  }

  predicate AllVisible(s: string) { forall i :: 0 <= i < |s| ==> !Invisible(s[i]) }

  lemma {:induction false} SanitizeShrinks(s: string)
    ensures |Sanitize(s)| <= |s| && ByteLen(Sanitize(s)) <= ByteLen(s)
  {
    if s != "" {
      SanitizeShrinks(s[..|s| - 1]);
      ByteSnoc(Sanitize(s[..|s| - 1]), s[|s| - 1]);
    }
  }

  lemma {:induction false} SanitizeCleans(s: string)
    ensures AllVisible(Sanitize(s))
  {
    if s != "" { SanitizeCleans(s[..|s| - 1]); }
  }

  /** Sanitising leaves a string alone exactly when there is nothing to take out. */
  lemma {:induction false} SanitizeFixes(s: string)
    ensures Sanitize(s) == s <==> AllVisible(s)
  {
    if s != "" {
      var front, c := s[..|s| - 1], s[|s| - 1];
      SanitizeFixes(front);
      SanitizeShrinks(front);
      assert s == front + [c];
      assert AllVisible(s) <==> AllVisible(front) && !Invisible(c);
    }
  }

  /** Sanitising takes each character by itself, and drops exactly the invisible ones. */
  lemma {:induction false} SanitizeParts(a: string, b: string)
    ensures Sanitize(a + b) == Sanitize(a) + Sanitize(b)
    ensures |b| == 1 ==> Sanitize(b) == if Invisible(b[0]) then "" else b
  {
    if b == "" {
      assert a + b == a;
    } else {
      SanitizeParts(a, b[..|b| - 1]);
      assert (a + b)[..|a + b| - 1] == a + b[..|b| - 1];
      if |b| == 1 { assert b[..0] == "" && b == "" + [b[0]]; }
    }
  }

  /** Control characters but the three that lay text out, marks that turn its direction, and
      marks of no width: 42 in all. */
  lemma InvisibleCodes(c: char)
    ensures Invisible(c) <==>
      c as int in {0, 1, 2, 3, 4, 5, 6, 7, 8, 11, 12, 14, 15, 16, 17, 18, 19, 20, 21, 22, 23, 24, 25, 26, 27, 28, 29, 30, 31,
                   8203, 8204, 8205, 8206, 8207, 8234, 8235, 8236, 8237, 8238, 8294, 8295, 8296, 8297, 65279}
  {
  }

  lemma SanitizeOnce(s: string)
    ensures Sanitize(Sanitize(s)) == Sanitize(s)
  {
    SanitizeCleans(s);
    SanitizeFixes(Sanitize(s));
  }

  // ---- writing and reading ----

  function Strings(ids: seq<string>): seq<Json> { seq(|ids|, i requires 0 <= i < |ids| => Str(ids[i])) }

  function Present(key: string, v: Option<string>): seq<Field> {
    if v.Some? then [Field(key, Str(v.value))] else []
  }

  function Serialize(p: Payload, ts: int): Json {
    match p
    case Text(id, body) => Obj([Field("type", Str("text")), Field("id", Str(id)), Field("body", Str(body)), Field("ts", Num(ts))])
    case Ack(ids) => Obj([Field("type", Str("delivery.ack")), Field("ack_ids", Arr(Strings(ids))), Field("ts", Num(ts))])
    case Profile(name, bio, photo) =>
      Obj([Field("type", Str("profile")), Field("ts", Num(ts))]
          + Present("display_name", name) + Present("bio", bio) + Present("photo", photo))
  }

  function Get(fields: seq<Field>, key: string): Option<Json> {
    if fields == [] then None
    else if fields[0].key == key then Some(fields[0].value)
    else Get(fields[1..], key)
  }

  function GetStr(fields: seq<Field>, key: string): Option<string> {
    var v := Get(fields, key);
    if v.Some? && v.value.Str? then Some(v.value.s) else None
  }

  function OnlyStrings(items: seq<Json>): seq<string> {
    if items == [] then []
    else
      var front := OnlyStrings(items[..|items| - 1]);
      if items[|items| - 1].Str? then front + [items[|items| - 1].s] else front
  }

  function Clean(v: Option<string>): Option<string> {
    if v.Some? then Some(Sanitize(v.value)) else None
  }

  /** What a reader makes of a payload that was sent. */
  function Cleaned(p: Payload): Payload {
    match p
    case Text(id, body) => Text(id, Sanitize(body))
    case Ack(_) => p
    case Profile(name, bio, photo) => Profile(Clean(name), Clean(bio), photo)
  }

  /** The caps a reader enforces. */
  predicate Acceptable(p: Payload) {
    match p
    case Text(id, body) => ByteLen(id) <= MAX_ID_LEN && ByteLen(body) <= MAX_BODY_LEN
    case Ack(ids) => |ids| <= MAX_ACK_IDS && forall i :: 0 <= i < |ids| ==> ByteLen(ids[i]) <= MAX_ID_LEN
    case Profile(name, bio, photo) =>
      && (name.Some? ==> |name.value| <= MAX_DISPLAY_NAME_LEN)
      && (bio.Some? ==> |bio.value| <= MAX_BIO_LEN)
      && (photo.Some? ==> ByteLen(photo.value) <= MAX_PHOTO_LEN && IsBase64(photo.value))
  }

  function ParseFields(fields: seq<Field>): Option<Parsed> {
    var n := Get(fields, "ts");
    var ts := if n.Some? && n.value.Num? && IsI64(n.value.n) then n.value.n else 0;
    match GetStr(fields, "type")
    case None => None
    case Some(ty) =>
      if ty == "text" then
        var id, body := GetStr(fields, "id"), GetStr(fields, "body");
        if id.None? || body.None? || !Acceptable(Text(id.value, Sanitize(body.value))) then None
        else Some(Parsed(ts, Text(id.value, Sanitize(body.value))))
      else if ty == "delivery.ack" then
        var raw := Get(fields, "ack_ids");
        if raw.None? || !raw.value.Arr? || |raw.value.items| > MAX_ACK_IDS || !Acceptable(Ack(OnlyStrings(raw.value.items))) then None
        else Some(Parsed(ts, Ack(OnlyStrings(raw.value.items))))
      else if ty == "profile" then
        var p := Profile(Clean(GetStr(fields, "display_name")), Clean(GetStr(fields, "bio")), GetStr(fields, "photo"));
        if !Acceptable(p) then None else Some(Parsed(ts, p))
      else None
  }

  function Parse(j: Json): Option<Parsed> {
    if j.Obj? then ParseFields(j.fields) else None
  }

  // ---- the round trip ----

  lemma {:induction false} StringsOnly(ids: seq<string>)
    ensures OnlyStrings(Strings(ids)) == ids
  {
    if ids != [] {
      var front := ids[..|ids| - 1];
      StringsOnly(front);
      assert Strings(ids)[..|ids| - 1] == Strings(front);
      assert ids == front + [ids[|ids| - 1]];
    }
  }

  lemma GetHead(key: string, k: string, v: Json, rest: seq<Field>)
    ensures Get([Field(k, v)] + rest, key) == if k == key then Some(v) else Get(rest, key)
  {
    assert ([Field(k, v)] + rest)[1..] == rest;
  }

  lemma TextField(id: string, body: string, ts: int, key: string)
    ensures Get(Serialize(Text(id, body), ts).fields, key)
      == if key == "type" then Some(Str("text")) else if key == "id" then Some(Str(id))
         else if key == "body" then Some(Str(body)) else if key == "ts" then Some(Num(ts)) else None
  {
    var last := [Field("ts", Num(ts))] + [];
    var tail := [Field("body", Str(body))] + last;
    var rest := [Field("id", Str(id))] + tail;
    assert Serialize(Text(id, body), ts).fields == [Field("type", Str("text"))] + rest;
    GetHead(key, "type", Str("text"), rest);
    GetHead(key, "id", Str(id), tail);
    GetHead(key, "body", Str(body), last);
    GetHead(key, "ts", Num(ts), []);
  }

  lemma AckField(ids: seq<string>, ts: int, key: string)
    ensures Get(Serialize(Ack(ids), ts).fields, key)
      == if key == "type" then Some(Str("delivery.ack")) else if key == "ack_ids" then Some(Arr(Strings(ids)))
         else if key == "ts" then Some(Num(ts)) else None
  {
    var last := [Field("ts", Num(ts))] + [];
    var rest := [Field("ack_ids", Arr(Strings(ids)))] + last;
    assert Serialize(Ack(ids), ts).fields == [Field("type", Str("delivery.ack"))] + rest;
    GetHead(key, "type", Str("delivery.ack"), rest);
    GetHead(key, "ack_ids", Arr(Strings(ids)), last);
    GetHead(key, "ts", Num(ts), []);
  }

  lemma GetPresent(key: string, k: string, v: Option<string>, rest: seq<Field>)
    ensures Get(Present(k, v) + rest, key) == if k == key && v.Some? then Some(Str(v.value)) else Get(rest, key)
  {
    if v.Some? { GetHead(key, k, Str(v.value), rest); } else { assert Present(k, v) + rest == rest; }
  }

  lemma ProfileField(name: Option<string>, bio: Option<string>, photo: Option<string>, ts: int, key: string)
    ensures Get(Serialize(Profile(name, bio, photo), ts).fields, key)
      == if key == "type" then Some(Str("profile")) else if key == "ts" then Some(Num(ts))
         else if key == "display_name" && name.Some? then Some(Str(name.value))
         else if key == "bio" && bio.Some? then Some(Str(bio.value))
         else if key == "photo" && photo.Some? then Some(Str(photo.value))
         else None
  {
    var last := Present("photo", photo) + [];
    var tail := Present("bio", bio) + last;
    var opts := Present("display_name", name) + tail;
    var fields := Serialize(Profile(name, bio, photo), ts).fields;
    assert fields == [Field("type", Str("profile"))] + ([Field("ts", Num(ts))] + opts);
    GetHead(key, "type", Str("profile"), [Field("ts", Num(ts))] + opts);
    GetHead(key, "ts", Num(ts), opts);
    GetPresent(key, "display_name", name, tail);
    GetPresent(key, "bio", bio, last);
    GetPresent(key, "photo", photo, []);
  }

  /** What the reader makes of what was written. */
  function ReadBack(p: Payload, ts: int): Option<Parsed> {
    if Acceptable(Cleaned(p)) then Some(Parsed(ts, Cleaned(p))) else None
  }

  lemma TextRoundTrip(id: string, body: string, ts: int)
    requires IsI64(ts)
    ensures Parse(Serialize(Text(id, body), ts)) == ReadBack(Text(id, body), ts)
  {
    TextField(id, body, ts, "type");
    TextField(id, body, ts, "ts");
    TextField(id, body, ts, "id");
    TextField(id, body, ts, "body");
  }

  lemma AckRoundTrip(ids: seq<string>, ts: int)
    requires IsI64(ts)
    ensures Parse(Serialize(Ack(ids), ts)) == ReadBack(Ack(ids), ts)
  {
    AckField(ids, ts, "type");
    AckField(ids, ts, "ts");
    AckField(ids, ts, "ack_ids");
    StringsOnly(ids);
  }

  lemma ProfileRoundTrip(name: Option<string>, bio: Option<string>, photo: Option<string>, ts: int)
    requires IsI64(ts)
    ensures Parse(Serialize(Profile(name, bio, photo), ts)) == ReadBack(Profile(name, bio, photo), ts)
  {
    ProfileField(name, bio, photo, ts, "type");
    ProfileField(name, bio, photo, ts, "ts");
    ProfileField(name, bio, photo, ts, "display_name");
    ProfileField(name, bio, photo, ts, "bio");
    ProfileField(name, bio, photo, ts, "photo");
  }

  /** What is written is read back, sanitised, with its timestamp — if and only if it is
      within the reader's caps once sanitised; otherwise the reader drops it. */
  lemma PayloadRoundTrip(p: Payload, ts: int)
    requires IsI64(ts)
    ensures Parse(Serialize(p, ts)) == if Acceptable(Cleaned(p)) then Some(Parsed(ts, Cleaned(p))) else None
  {
    match p
    case Text(id, body) => TextRoundTrip(id, body, ts);
    case Ack(ids) => AckRoundTrip(ids, ts);
    case Profile(name, bio, photo) => ProfileRoundTrip(name, bio, photo, ts);
  }

  /** Whatever is within the caps before sanitising is within them after. */
  lemma CleanedAcceptable(p: Payload)
    requires Acceptable(p)
    ensures Acceptable(Cleaned(p))
  {
    match p
    case Text(_, body) => SanitizeShrinks(body);
    case Ack(_) =>
    case Profile(name, bio, _) =>
      if name.Some? { SanitizeShrinks(name.value); }
      if bio.Some? { SanitizeShrinks(bio.value); }
  }

  lemma CleanedOnce(p: Payload)
    ensures Cleaned(Cleaned(p)) == Cleaned(p)
  {
    match p
    case Text(_, body) => SanitizeOnce(body);
    case Ack(_) =>
    case Profile(name, bio, _) =>
      if name.Some? { SanitizeOnce(name.value); }
      if bio.Some? { SanitizeOnce(bio.value); }
  }

  /** What a reader accepted is read back unchanged when it is written again: reading
      reaches a fixed point after one round. */
  lemma ReadBackIsStable(p: Payload, ts: int)
    requires IsI64(ts) && Parse(Serialize(p, ts)).Some?
    ensures var r := Parse(Serialize(p, ts)).value; Parse(Serialize(r.payload, r.ts)) == Some(r)
  {
    PayloadRoundTrip(p, ts);
    CleanedOnce(p);
    PayloadRoundTrip(Cleaned(p), ts);
  }

  // ---- what a reader lets in ----

  function StrOf(fields: seq<Field>, key: string): Option<string> {
    if Get(fields, key).Some? && Get(fields, key).value.Str? then Some(Get(fields, key).value.s) else None
  }

  /** Whatever a reader accepts, from any tree at all, is what the tree says under its own
      type, shows no invisible character, and is within every cap. */
  lemma ReadIsSound(j: Json)
    requires Parse(j).Some?
    ensures j.Obj?
    ensures var fields, r := j.fields, Parse(j).value;
      && (Get(fields, "ts").Some? && Get(fields, "ts").value.Num? && IsI64(Get(fields, "ts").value.n) ==> r.ts == Get(fields, "ts").value.n)
      && IsI64(r.ts)
      && match r.payload
         case Text(id, body) =>
           && StrOf(fields, "type") == Some("text") && StrOf(fields, "id") == Some(id) && StrOf(fields, "body").Some?
           && body == Sanitize(StrOf(fields, "body").value) && AllVisible(body) && ByteLen(id) <= 128 && ByteLen(body) <= 65536
         case Ack(ids) =>
           && StrOf(fields, "type") == Some("delivery.ack") && |ids| <= 1024
           && forall i :: 0 <= i < |ids| ==> ByteLen(ids[i]) <= 128
         case Profile(name, bio, photo) =>
           && StrOf(fields, "type") == Some("profile")
           && (name.Some? ==> AllVisible(name.value) && |name.value| <= 128)
           && (bio.Some? ==> AllVisible(bio.value) && |bio.value| <= 1024)
           && photo == StrOf(fields, "photo") && (photo.Some? ==> ByteLen(photo.value) <= 65536 && IsBase64(photo.value))
  {
    match Parse(j).value.payload
    case Text(_, _) => SanitizeCleans(StrOf(j.fields, "body").value);
    case Ack(_) =>
    case Profile(_, _, _) =>
      if StrOf(j.fields, "display_name").Some? { SanitizeCleans(StrOf(j.fields, "display_name").value); }
      if StrOf(j.fields, "bio").Some? { SanitizeCleans(StrOf(j.fields, "bio").value); }
  }

  // ---- the plaintext cap ----

  lemma {:induction false} IdsLen(ids: seq<string>)
    requires forall i :: 0 <= i < |ids| ==> ByteLen(ids[i]) <= MAX_ID_LEN
    ensures ItemsLen(Strings(ids)) <= 771 * |ids|
  {
    if ids != [] {
      var front := ids[..|ids| - 1];
      IdsLen(front);
      QuotedBound(ids[|ids| - 1]);
      assert Strings(ids)[..|ids| - 1] == Strings(front);
    }
  }

  lemma FieldsSnoc(fields: seq<Field>, k: string, v: Json, before: nat, bound: nat)
    requires FieldsLen(fields) <= before && |k| <= 12 && TextLen(v) <= bound
    ensures FieldsLen(fields + [Field(k, v)]) <= before + bound + 76
  {
    QuotedBound(k);
    assert (fields + [Field(k, v)])[..|fields|] == fields;
  }

  lemma StrSnoc(fields: seq<Field>, k: string, v: string, before: nat, bound: nat)
    requires FieldsLen(fields) <= before && |k| <= 12 && (ByteLen(v) <= bound || |v| <= bound)
    ensures FieldsLen(fields + [Field(k, Str(v))]) <= before + 6 * bound + 78
  {
    QuotedBound(v);
    FieldsSnoc(fields, k, Str(v), before, 2 + 6 * bound);
  }

  lemma PresentLen(fields: seq<Field>, k: string, v: Option<string>, before: nat, bound: nat)
    requires FieldsLen(fields) <= before && |k| <= 12 && (v.Some? ==> ByteLen(v.value) <= bound || |v.value| <= bound)
    ensures FieldsLen(fields + Present(k, v)) <= before + 6 * bound + 78
  {
    if v.Some? { StrSnoc(fields, k, v.value, before, bound); } else { assert fields + Present(k, v) == fields; }
  }

  lemma TextHead(id: string)
    requires ByteLen(id) <= MAX_ID_LEN
    ensures FieldsLen([Field("type", Str("text")), Field("id", Str(id))]) <= 2000
  {
    var f1 := [] + [Field("type", Str("text"))];
    StrSnoc([], "type", "text", 0, 4);
    StrSnoc(f1, "id", id, 200, MAX_ID_LEN);
    assert f1 + [Field("id", Str(id))] == [Field("type", Str("text")), Field("id", Str(id))];
  }

  lemma TextFits(id: string, body: string, ts: int)
    requires Acceptable(Text(id, body))
    ensures TextLen(Serialize(Text(id, body), ts)) < MAX_PLAINTEXT_LEN
  {
    var f2 := [Field("type", Str("text")), Field("id", Str(id))];
    var f3 := f2 + [Field("body", Str(body))];
    TextHead(id);
    StrSnoc(f2, "body", body, 2000, MAX_BODY_LEN);
    FieldsSnoc(f3, "ts", Num(ts), 400000, 20);
    assert Serialize(Text(id, body), ts) == Obj(f3 + [Field("ts", Num(ts))]);
  }

  lemma AckFits(ids: seq<string>, ts: int)
    requires Acceptable(Ack(ids))
    ensures TextLen(Serialize(Ack(ids), ts)) < MAX_PLAINTEXT_LEN
  {
    IdsLen(ids);
    var all := Arr(Strings(ids));
    var f1 := [] + [Field("type", Str("delivery.ack"))];
    var f2 := f1 + [Field("ack_ids", all)];
    var f3 := f2 + [Field("ts", Num(ts))];
    StrSnoc([], "type", "delivery.ack", 0, 12);
    FieldsSnoc(f1, "ack_ids", all, 200, 800000);
    FieldsSnoc(f2, "ts", Num(ts), 801000, 20);
    assert Serialize(Ack(ids), ts) == Obj(f3);
  }

  lemma ProfileHead(ts: int)
    ensures FieldsLen([Field("type", Str("profile")), Field("ts", Num(ts))]) <= 300
  {
    var f1 := [] + [Field("type", Str("profile"))];
    StrSnoc([], "type", "profile", 0, 7);
    FieldsSnoc(f1, "ts", Num(ts), 200, 20);
    assert f1 + [Field("ts", Num(ts))] == [Field("type", Str("profile")), Field("ts", Num(ts))];
  }

  lemma ProfileNames(name: Option<string>, bio: Option<string>, ts: int)
    requires Acceptable(Profile(name, bio, None))
    ensures FieldsLen([Field("type", Str("profile")), Field("ts", Num(ts))] + Present("display_name", name) + Present("bio", bio)) <= 8000
  {
    var f2 := [Field("type", Str("profile")), Field("ts", Num(ts))];
    ProfileHead(ts);
    PresentLen(f2, "display_name", name, 300, MAX_DISPLAY_NAME_LEN);
    PresentLen(f2 + Present("display_name", name), "bio", bio, 1200, MAX_BIO_LEN);
  }

  lemma ProfileFits(name: Option<string>, bio: Option<string>, photo: Option<string>, ts: int)
    requires Acceptable(Profile(name, bio, photo))
    ensures TextLen(Serialize(Profile(name, bio, photo), ts)) < MAX_PLAINTEXT_LEN
  {
    ProfileNames(name, bio, ts);
    var head := [Field("type", Str("profile")), Field("ts", Num(ts))] + Present("display_name", name) + Present("bio", bio);
    PresentLen(head, "photo", photo, 8000, MAX_PHOTO_LEN);
    assert Serialize(Profile(name, bio, photo), ts) == Obj(head + Present("photo", photo));
  }

  /** A payload within the caps prints to less than a megabyte even when every byte needs
      the longest escape, so encryption never refuses it on length. */
  lemma PayloadFitsPlaintext(p: Payload, ts: int)
    requires Acceptable(p)
    ensures TextLen(Serialize(p, ts)) < MAX_PLAINTEXT_LEN
  {
    match p
    case Text(id, body) => TextFits(id, body, ts);
    case Ack(ids) => AckFits(ids, ts);
    case Profile(name, bio, photo) => ProfileFits(name, bio, photo, ts);
  }

  // ---- acks in pieces ----

  /** Ids in pieces a reader accepts. */
  function Chunks(ids: seq<string>): seq<seq<string>> {
    if |ids| <= MAX_ACK_IDS then (if ids == [] then [] else [ids])
    else [ids[..MAX_ACK_IDS]] + Chunks(ids[MAX_ACK_IDS..])
  }

  function Concat(chunks: seq<seq<string>>): seq<string> {
    if chunks == [] then [] else chunks[0] + Concat(chunks[1..])
  }

  /** The pieces are in order, none is empty or too long, and together they are the ids. */
  lemma {:induction false} ChunksCover(ids: seq<string>)
    ensures Concat(Chunks(ids)) == ids
    ensures forall i :: 0 <= i < |Chunks(ids)| ==> 0 < |Chunks(ids)[i]| <= MAX_ACK_IDS
    ensures forall i :: 0 <= i < |Chunks(ids)| ==> forall id :: id in Chunks(ids)[i] ==> id in ids
  {
    if |ids| > MAX_ACK_IDS {
      ChunksCover(ids[MAX_ACK_IDS..]);
      assert Chunks(ids)[1..] == Chunks(ids[MAX_ACK_IDS..]);
    } else if ids != [] {
      assert Concat([ids]) == ids + Concat([ids][1..]) == ids;
    }
  }

  lemma ChunkAcceptable(ids: seq<string>, i: nat)
    requires forall id :: id in ids ==> ByteLen(id) <= MAX_ID_LEN
    requires i < |Chunks(ids)|
    ensures Acceptable(Ack(Chunks(ids)[i]))
  {
    ChunksCover(ids);
  }
}
