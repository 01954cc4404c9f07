/** The byte strings that are hashed to identify a send request and a UI entity.  Two inputs share
    an encoding only if they are the same, so identifiers collide only if the hash does. */
module HashEncoding {
  import opened Common

  type Byte = x: int | 0 <= x < 256
  type Bytes = seq<Byte>
  const TwoTo64 := 0x1_0000_0000_0000_0000

  // Numbers ----------------------------------------------------------------------------------------

  /** The low `k` bytes of `n`, most significant first. */
  function BigEndian(n: nat, k: nat): (r: Bytes)
    ensures |r| == k
  {
    if k == 0 then [] else BigEndian(n / 256, k - 1) + [n % 256]
  }

  function FromBigEndian(b: Bytes): nat {
    if b == [] then 0 else FromBigEndian(b[..|b| - 1]) * 256 + b[|b| - 1]
  }

  function Pow256(k: nat): nat {
    if k == 0 then 1 else 256 * Pow256(k - 1)
  }

  lemma {:induction false} BigEndianRoundTrip(n: nat, k: nat)
    requires n < Pow256(k)
    ensures FromBigEndian(BigEndian(n, k)) == n
  {
    if k > 0 {
      assert n / 256 < Pow256(k - 1);
      BigEndianRoundTrip(n / 256, k - 1);
      assert BigEndian(n, k)[..k - 1] == BigEndian(n / 256, k - 1);
    }
  }

  lemma Pow256Of8()
    ensures Pow256(8) == TwoTo64
  {
    assert Pow256(4) == 0x1_0000_0000;
  }

  /** `uint64(x)` for a signed value: two's complement. */
  function ToUint64(x: Int64): nat {
    if x < 0 then x + TwoTo64 else x
  }

  function Word(n: nat): (r: Bytes)
    ensures |r| == 8
  {
    BigEndian(n, 8)
  }

  lemma WordUnique(m: nat, n: nat, x: Bytes, y: Bytes)
    requires m < TwoTo64 && n < TwoTo64 && Word(m) + x == Word(n) + y
    ensures m == n && x == y
  {
    Pow256Of8();
    BigEndianRoundTrip(m, 8);
    BigEndianRoundTrip(n, 8);
    assert Word(m) == (Word(m) + x)[..8] && Word(n) == (Word(n) + y)[..8];
    assert x == (Word(m) + x)[8..] && y == (Word(n) + y)[8..];
  }

  // Send requests ------------------------------------------------------------------------------------

  datatype Attachment = Attachment(name: Bytes, size: Int64, sha256: Bytes)
  datatype Request = Request(conversation: Bytes, text: Bytes, share: Bytes, attachments: seq<Attachment>)

  /** Lengths fit the machine word, as those of any value in memory do. */
  predicate Short(v: Bytes) {
    |v| < TwoTo64
  }

  predicate Fits(r: Request) {
    && Short(r.conversation) && Short(r.text) && Short(r.share) && |r.attachments| < TwoTo64
    && forall k :: 0 <= k < |r.attachments| ==> Short(r.attachments[k].name) && Short(r.attachments[k].sha256)
  }

  function Field(v: Bytes): Bytes {
    Word(|v|) + v
  }

  function EncodeAttachment(a: Attachment): Bytes {
    Field(a.name) + Word(ToUint64(a.size)) + Field(a.sha256)
  }

  function EncodeAttachments(s: seq<Attachment>): Bytes {
    if s == [] then [] else EncodeAttachments(s[..|s| - 1]) + EncodeAttachment(s[|s| - 1])
  }

  function Encode(r: Request): Bytes {
    Field(r.conversation) + Field(r.text) + Field(r.share) + Word(|r.attachments|) + EncodeAttachments(r.attachments)
  }

  lemma FieldUnique(a: Bytes, b: Bytes, x: Bytes, y: Bytes)
    requires Short(a) && Short(b) && Field(a) + x == Field(b) + y
    ensures a == b && x == y
  {
    assert Field(a) + x == Word(|a|) + (a + x);
    assert Field(b) + y == Word(|b|) + (b + y);
    WordUnique(|a|, |b|, a + x, b + y);
    assert a == (a + x)[..|a|] && b == (b + y)[..|b|];
    assert x == (a + x)[|a|..] && y == (b + y)[|b|..];
  }

  lemma Assoc(a: Bytes, b: Bytes, c: Bytes, x: Bytes)
    ensures a + b + c + x == a + (b + (c + x))
  {
  }

  lemma AttachmentUnique(a: Attachment, b: Attachment, x: Bytes, y: Bytes)
    requires Short(a.name) && Short(a.sha256) && Short(b.name) && Short(b.sha256)
    requires EncodeAttachment(a) + x == EncodeAttachment(b) + y
    ensures a == b && x == y
  {
    var sizeA, sizeB := ToUint64(a.size), ToUint64(b.size);
    Assoc(Field(a.name), Word(sizeA), Field(a.sha256), x);
    Assoc(Field(b.name), Word(sizeB), Field(b.sha256), y);
    FieldUnique(a.name, b.name, Word(sizeA) + (Field(a.sha256) + x), Word(sizeB) + (Field(b.sha256) + y));
    WordUnique(sizeA, sizeB, Field(a.sha256) + x, Field(b.sha256) + y);
    FieldUnique(a.sha256, b.sha256, x, y);
  }

  /** The list's encoding, read from the front. */
  lemma {:induction false} EncodeFirst(s: seq<Attachment>)
    requires s != []
    ensures EncodeAttachments(s) == EncodeAttachment(s[0]) + EncodeAttachments(s[1..])
  {
    if |s| > 1 {
      EncodeFirst(s[..|s| - 1]);
      assert s[..|s| - 1][1..] == s[1..][..|s| - 2];
    }
  }

  lemma {:induction false} AttachmentsUnique(s: seq<Attachment>, t: seq<Attachment>)
    requires |s| == |t| && EncodeAttachments(s) == EncodeAttachments(t)
    requires forall k :: 0 <= k < |s| ==> Short(s[k].name) && Short(s[k].sha256) && Short(t[k].name) && Short(t[k].sha256)
    ensures s == t
  {
    if s != [] {
      EncodeFirst(s);
      EncodeFirst(t);
      AttachmentUnique(s[0], t[0], EncodeAttachments(s[1..]), EncodeAttachments(t[1..]));
      AttachmentsUnique(s[1..], t[1..]);
      assert s == [s[0]] + s[1..] && t == [t[0]] + t[1..];
    }
  }

  function Tail(r: Request): Bytes {
    Word(|r.attachments|) + EncodeAttachments(r.attachments)
  }

  lemma EncodeSplits(r: Request)
    ensures Encode(r) == Field(r.conversation) + (Field(r.text) + (Field(r.share) + Tail(r)))
  {
    var a, b, c := Field(r.conversation), Field(r.text), Field(r.share);
    var w, x := Word(|r.attachments|), EncodeAttachments(r.attachments);
    assert a + b + c + w + x == a + b + c + (w + x);
    Assoc(a, b, c, w + x);
  }

  /** Equal encodings come from equal requests. */
  lemma EncodingIsInjective(p: Request, q: Request)
    requires Fits(p) && Fits(q) && Encode(p) == Encode(q)
    ensures p == q
  {
    EncodeSplits(p);
    EncodeSplits(q);
    FieldUnique(p.conversation, q.conversation, Field(p.text) + (Field(p.share) + Tail(p)), Field(q.text) + (Field(q.share) + Tail(q)));
    FieldUnique(p.text, q.text, Field(p.share) + Tail(p), Field(q.share) + Tail(q));
    FieldUnique(p.share, q.share, Tail(p), Tail(q));
    WordUnique(|p.attachments|, |q.attachments|, EncodeAttachments(p.attachments), EncodeAttachments(q.attachments));
    AttachmentsUnique(p.attachments, q.attachments);
  }

  /** `canonicalSendHash` up to the digest: what is written, piece by piece. */
  method CanonicalBytes(r: Request) returns (out: Bytes)
    ensures out == Encode(r)
  {
    out := Word(|r.conversation|) + r.conversation;
    out := out + Word(|r.text|) + r.text;
    out := out + Word(|r.share|) + r.share;
    out := out + Word(|r.attachments|);
    assert out == Field(r.conversation) + Field(r.text) + Field(r.share) + Word(|r.attachments|);
    ghost var head := out;
    for i := 0 to |r.attachments|
      invariant out == head + EncodeAttachments(r.attachments[..i])
    {
      var a := r.attachments[i];
      ghost var before := out;
      out := out + Word(|a.name|) + a.name;
      out := out + Word(ToUint64(a.size));
      out := out + Word(|a.sha256|) + a.sha256;
      assert out == before + EncodeAttachment(a);
      assert r.attachments[..i + 1][..i] == r.attachments[..i];
    }
    assert r.attachments[..|r.attachments|] == r.attachments;
  }

  // UI identifiers ---------------------------------------------------------------------------------------

  const Colon: Byte := 58

  /** `strconv.Itoa` of a length. */
  function Decimal(n: nat): (r: Bytes)
    ensures |r| > 0 && forall k :: 0 <= k < |r| ==> 48 <= r[k] < 58
  {
    if n < 10 then [48 + n] else Decimal(n / 10) + [48 + n % 10]
  }

  function FromDecimal(b: Bytes): int {
    if b == [] then 0 else FromDecimal(b[..|b| - 1]) * 10 + b[|b| - 1] as int - 48
  }

  lemma {:induction false} DecimalRoundTrip(n: nat)
    ensures FromDecimal(Decimal(n)) == n
  {
    var d := Decimal(n);
    if n < 10 {
      assert d[..0] == [];
    } else {
      DecimalRoundTrip(n / 10);
      assert d[..|d| - 1] == Decimal(n / 10);
    }
  }

  function Item(v: Bytes): Bytes {
    Decimal(|v|) + [Colon] + v
  }

  function Items(values: seq<Bytes>): Bytes {
    if values == [] then [] else Items(values[..|values| - 1]) + Item(values[|values| - 1])
  }

  /** The first colon ends the length. */
  lemma LengthUnique(m: nat, n: nat, x: Bytes, y: Bytes)
    requires Decimal(m) + [Colon] + x == Decimal(n) + [Colon] + y
    ensures m == n && x == y
  {
    var s := Decimal(m) + [Colon] + x;
    var i, j := |Decimal(m)|, |Decimal(n)|;
    assert s[i] == Colon && s[j] == Colon;
    assert forall k :: 0 <= k < i ==> s[k] == Decimal(m)[k];
    assert forall k :: 0 <= k < j ==> s[k] == Decimal(n)[k];
    assert i == j;
    assert Decimal(m) == s[..i] && Decimal(n) == s[..j];
    assert x == s[i + 1..] && y == s[j + 1..];
    DecimalRoundTrip(m);
    DecimalRoundTrip(n);
  }

  lemma ItemUnique(a: Bytes, b: Bytes, x: Bytes, y: Bytes)
    requires Item(a) + x == Item(b) + y
    ensures a == b && x == y
  {
    assert Item(a) + x == Decimal(|a|) + [Colon] + (a + x);
    assert Item(b) + y == Decimal(|b|) + [Colon] + (b + y);
    LengthUnique(|a|, |b|, a + x, b + y);
    assert a == (a + x)[..|a|] && b == (b + y)[..|b|];
    assert x == (a + x)[|a|..] && y == (b + y)[|b|..];
  }

  lemma {:induction false} ItemsFirst(values: seq<Bytes>)
    requires values != []
    ensures Items(values) == Item(values[0]) + Items(values[1..])
  {
    if |values| > 1 {
      ItemsFirst(values[..|values| - 1]);
      assert values[..|values| - 1][1..] == values[1..][..|values| - 2];
    }
  }

  /** Equal encodings come from equal lists, whatever their lengths. */
  lemma {:induction false} ItemsAreInjective(p: seq<Bytes>, q: seq<Bytes>)
    requires Items(p) == Items(q)
    ensures p == q
  {
    if p != [] {
      ItemsFirst(p);
    }
    if q != [] {
      ItemsFirst(q);
    }
    if p != [] && q != [] {
      ItemUnique(p[0], q[0], Items(p[1..]), Items(q[1..]));
      ItemsAreInjective(p[1..], q[1..]);
      assert p == [p[0]] + p[1..] && q == [q[0]] + q[1..];
    }
  }

  /** `stableUIID` up to the digest. */
  method StableBytes(values: seq<Bytes>) returns (out: Bytes)
    ensures out == Items(values)
  {
    out := [];
    for i := 0 to |values|
      invariant out == Items(values[..i])
    {
      out := out + Decimal(|values[i]|) + [Colon] + values[i];
      assert values[..i + 1][..i] == values[..i];
      assert out == Items(values[..i]) + Item(values[i]);
    }
    assert values[..|values|] == values;
  }
}
