/** API keys: their identifiers, the model references they carry, and the Secret that holds them. */
module ApiKeys {
  import opened Text

  // ---------- model references ----------

  /** The trimmed, non-empty segments, in order. */
  function TrimmedSegments(parts: seq<string>): seq<string> {
    if parts == [] then []
    else
      var last := TrimSpace(parts[|parts| - 1]);
      TrimmedSegments(parts[..|parts| - 1]) + if last != "" then [last] else []
  }

  function ModelRefs(value: string): seq<string> {
    Canonical(TrimmedSegments(Split(value, ',')))
  }

  method ParseModelRefs(value: string) returns (refs: seq<string>)
    ensures refs == ModelRefs(value)
  {
    refs := [];
    var parts := Split(value, ',');
    for i := 0 to |parts|
      invariant refs == TrimmedSegments(parts[..i])
    {
      assert parts[..i + 1][..i] == parts[..i];
      var ref := TrimSpace(parts[i]);
      if ref != "" {
        refs := refs + [ref];
      }
    }
    assert parts[..|parts|] == parts;
    refs := Canonical(refs);
  }

  lemma {:induction false} TrimmedSegmentsMeaning(parts: seq<string>, x: string)
    ensures x in TrimmedSegments(parts) <==> x != "" && exists p :: p in parts && TrimSpace(p) == x
  {
    if parts != [] {
      TrimmedSegmentsMeaning(parts[..|parts| - 1], x);
      LastMember(parts);
    }
  }

  /** Strictly increasing, and exactly the trimmed non-empty segments. */
  lemma ModelRefsMeaning(value: string)
    ensures IncreasingBy(Self, ModelRefs(value))
    ensures forall x :: x in ModelRefs(value) <==> x != "" && exists p :: p in Split(value, ',') && TrimSpace(p) == x
  {
    hide Compact, SortBy, TrimSpace, Split, TrimmedSegments;
    CanonicalMeaning(TrimmedSegments(Split(value, ',')));
    forall x ensures x in ModelRefs(value) <==> x != "" && exists p :: p in Split(value, ',') && TrimSpace(p) == x {
      TrimmedSegmentsMeaning(Split(value, ','), x);
    }
  }

  /** `x` is a segment of the comma-separated value once the spaces around it are taken away. */
  ghost predicate PaddedSegment(value: string, x: string) {
    exists l: string, r: string :: AllSpaces(l) && AllSpaces(r) && l + x + r in Split(value, ',')
  }

  /** Exactly the non-empty texts without space at their ends that some segment pads with spaces. */
  lemma ModelRefsExactly(value: string, x: string)
    ensures x in ModelRefs(value) <==>
      x != "" && !IsSpace(x[0]) && !IsSpace(x[|x| - 1]) && PaddedSegment(value, x)
  {
    hide ModelRefs, Split, TrimSpace, IsSpace;
    ModelRefsMeaning(value);
    if x in ModelRefs(value) {
      var p :| p in Split(value, ',') && TrimSpace(p) == x;
      var l, r := TrimTakes(p);
      assert l + x + r in Split(value, ',');
      TrimMeaning(p);
    }
    if x != "" && !IsSpace(x[0]) && !IsSpace(x[|x| - 1]) && PaddedSegment(value, x) {
      var l: string, r: string :| AllSpaces(l) && AllSpaces(r) && l + x + r in Split(value, ',');
      TrimPadded(l, x, r);
    }
  }

  predicate PlainRef(x: string) {
    x != "" && ',' !in x && Trimmed(x)
  }

  lemma ModelRefsPlain(value: string)
    ensures forall x :: x in ModelRefs(value) ==> PlainRef(x)
  {
    ModelRefsMeaning(value);
    SplitPieces(value, ',');
    forall x | x in ModelRefs(value) ensures PlainRef(x) {
      var p :| p in Split(value, ',') && TrimSpace(p) == x;
      TrimMeaning(p);
    }
  }

  /** A comma-joined list of plain, strictly increasing references parses back to itself. */
  lemma JoinedRefsParse(refs: seq<string>)
    requires IncreasingBy(Self, refs) && forall x :: x in refs ==> PlainRef(x)
    ensures ModelRefs(Join(refs, ',')) == refs
  {
    var value := Join(refs, ',');
    if refs != [] { SplitJoin(refs, ','); }
    ModelRefsMeaning(value);
    forall x ensures x in ModelRefs(value) <==> x in refs {
      if x in refs { TrimMeaning(x); }
      if x in ModelRefs(value) {
        var p :| p in Split(value, ',') && TrimSpace(p) == x;
        TrimMeaning(p);
        assert p in refs ==> p == x;
      }
    }
    IncreasingUnique(Self, ModelRefs(value), refs);
  }

  /** The annotation's canonical form is a fixed point of parsing. */
  lemma ModelRefsCanonical(value: string)
    ensures ModelRefs(Join(ModelRefs(value), ',')) == ModelRefs(value)
  {
    ModelRefsMeaning(value);
    ModelRefsPlain(value);
    JoinedRefsParse(ModelRefs(value));
  }

  /** A value parses to just itself exactly when it is one plain reference. */
  lemma OwnRefParses(ref: string)
    ensures ModelRefs(ref) == [ref] <==> PlainRef(ref)
  {
    if PlainRef(ref) {
      JoinedRefsParse([ref]);
    }
    if ModelRefs(ref) == [ref] {
      assert ref in ModelRefs(ref);
      ModelRefsPlain(ref);
    }
  }

  lemma SpaceIsNoComma(s: string)
    requires AllSpaces(s)
    ensures ',' !in s
  {
    SpaceCodes(',');
  }

  /** Spaces around a plain reference are not part of it. */
  lemma PaddedRefParses(l: string, x: string, r: string)
    requires AllSpaces(l) && AllSpaces(r) && PlainRef(x)
    ensures ModelRefs(l + x + r) == [x]
  {
    hide ModelRefs, Split, IsSpace;
    var value := l + x + r;
    SpaceIsNoComma(l);
    SpaceIsNoComma(r);
    SplitPiece(value, ',');
    TrimPadded(l, x, r);
    ModelRefsMeaning(value);
    assert forall y :: y in ModelRefs(value) <==> y in [x];
    IncreasingUnique(Self, ModelRefs(value), [x]);
  }

  // ---------- key identifiers: base32, section 6 of RFC 4648 ----------

  const ALPHABET := "abcdefghijklmnopqrstuvwxyz234567"
  const ID_PREFIX := "k_"

  type byte = b: int | 0 <= b < 256
  type quintet = q: int | 0 <= q < 32

  function Quintets(b: seq<byte>): (q: seq<quintet>)
    requires |b| == 5
    ensures |q| == 8
  {
    [b[0] / 8, b[0] % 8 * 4 + b[1] / 64, b[1] / 2 % 32, b[1] % 2 * 16 + b[2] / 16,
     b[2] % 16 * 2 + b[3] / 128, b[3] / 4 % 32, b[3] % 4 * 8 + b[4] / 32, b[4] % 32]
  }

  function Octets(q: seq<int>): seq<int>
    requires |q| == 8
  {
    [q[0] * 8 + q[1] / 4, q[1] % 4 * 64 + q[2] * 2 + q[3] / 16, q[3] % 16 * 16 + q[4] / 2,
     q[4] % 2 * 128 + q[5] * 4 + q[6] / 8, q[6] % 8 * 32 + q[7]]
  }

  lemma OctetsOfQuintets(b: seq<byte>)
    requires |b| == 5
    ensures Octets(Quintets(b)) == b
  {
    var q := Quintets(b);
    TwoBits(b[0] % 8, b[1] / 64);
    FourBits(b[1] % 2, b[2] / 16);
    OneBit(b[2] % 16, b[3] / 128);
    ThreeBits(b[3] % 4, b[4] / 32);
    SecondByte(b[1]);
    FourthByte(b[3]);
  }

  lemma TwoBits(high: int, low: int)
    requires 0 <= low < 4
    ensures (high * 4 + low) / 4 == high && (high * 4 + low) % 4 == low
  {
  }

  lemma FourBits(high: int, low: int)
    requires 0 <= low < 16
    ensures (high * 16 + low) / 16 == high && (high * 16 + low) % 16 == low
  {
  }

  lemma OneBit(high: int, low: int)
    requires 0 <= low < 2
    ensures (high * 2 + low) / 2 == high && (high * 2 + low) % 2 == low
  {
  }

  lemma ThreeBits(high: int, low: int)
    requires 0 <= low < 8
    ensures (high * 8 + low) / 8 == high && (high * 8 + low) % 8 == low
  {
  }

  lemma SecondByte(n: byte)
    ensures n == n / 64 * 64 + n / 2 % 32 * 2 + n % 2
  {
  }

  lemma FourthByte(n: byte)
    ensures n == n / 128 * 128 + n / 4 % 32 * 4 + n % 4
  {
  }

  /** The number spelled by digits, most significant first. */
  function Number(base: int, digits: seq<int>): int {
    if digits == [] then 0 else Number(base, digits[..|digits| - 1]) * base + digits[|digits| - 1]
  }

  lemma NumberOfFive(base: int, d: seq<int>)
    requires |d| == 5
    ensures Number(base, d) == (((d[0] * base + d[1]) * base + d[2]) * base + d[3]) * base + d[4]
  {
    var d4, d3, d2, d1 := d[..4], d[..3], d[..2], d[..1];
    assert d4[..3] == d3 && d3[..2] == d2 && d2[..1] == d1 && d1[..0] == [];
    assert Number(base, d1) == d[0];
    assert Number(base, d2) == d[0] * base + d[1];
    assert Number(base, d3) == Number(base, d2) * base + d[2];
  }

  /** Five bytes and their eight quintets spell the same 40-bit number. */
  lemma QuintetsSpellOctets(b: seq<byte>)
    requires |b| == 5
    ensures Number(32, Quintets(b)) == Number(256, b)
  {
    var q: seq<int> := Quintets(b);
    var head := q[..5];
    NumberOfFive(256, b);
    NumberOfFive(32, head);
    assert q[..7][..6] == q[..6] && q[..6][..5] == head;
    assert Number(32, q[..6]) == Number(32, head) * 32 + q[5];
    assert Number(32, q[..7]) == Number(32, q[..6]) * 32 + q[6];
    assert Number(32, q) == Number(32, q[..7]) * 32 + q[7];
    OctetsOfQuintets(b);
    var c := Octets(q);
    RegroupBits(q, c);
  }

  lemma RegroupBits(q: seq<int>, b: seq<int>)
    requires |q| == 8 && b == Octets(q)
    ensures (((((((q[0] * 32 + q[1]) * 32 + q[2]) * 32 + q[3]) * 32 + q[4]) * 32 + q[5]) * 32 + q[6]) * 32 + q[7])
         == ((((b[0] * 256 + b[1]) * 256 + b[2]) * 256 + b[3]) * 256 + b[4])
  {
    assert q[1] == q[1] / 4 * 4 + q[1] % 4;
    assert q[3] == q[3] / 16 * 16 + q[3] % 16;
    assert q[4] == q[4] / 2 * 2 + q[4] % 2;
    assert q[6] == q[6] / 8 * 8 + q[6] % 8;
  }

  function Letters(q: seq<quintet>): (r: string)
    ensures |r| == |q|
    ensures forall i :: 0 <= i < |q| ==> r[i] == ALPHABET[q[i]]
  {
    seq(|q|, i requires 0 <= i < |q| => ALPHABET[q[i]])
  }

  /** Unpadded encoding of whole five-byte groups. */
  function Base32(b: seq<byte>): (r: string)
    requires |b| % 5 == 0
    ensures |r| == |b| / 5 * 8
  {
    if b == [] then "" else Letters(Quintets(b[..5])) + Base32(b[5..])
  }

  lemma LettersInjective(p: seq<quintet>, q: seq<quintet>)
    requires Letters(p) == Letters(q)
    ensures p == q
  {
    forall i | 0 <= i < |p| ensures p[i] == q[i] {
      assert ALPHABET[p[i]] == Letters(p)[i] == Letters(q)[i] == ALPHABET[q[i]];
      LetterInjective(p[i], q[i]);
    }
  }

  lemma LetterValue(i: quintet)
    ensures ALPHABET[i] == if i < 26 then ('a' as int + i) as char else ('2' as int + i - 26) as char
  {
  }

  lemma LetterInjective(i: quintet, j: quintet)
    requires ALPHABET[i] == ALPHABET[j]
    ensures i == j
  {
    LetterValue(i);
    LetterValue(j);
  }

  lemma {:induction false} Base32Injective(a: seq<byte>, b: seq<byte>)
    requires |a| % 5 == 0 && |b| % 5 == 0 && Base32(a) == Base32(b)
    ensures a == b
  {
    if a != [] && b != [] {
      var p, q := Quintets(a[..5]), Quintets(b[..5]);
      assert Letters(p) == Base32(a)[..8] == Base32(b)[..8] == Letters(q);
      LettersInjective(p, q);
      OctetsOfQuintets(a[..5]);
      OctetsOfQuintets(b[..5]);
      assert Base32(a[5..]) == Base32(a)[8..] == Base32(b)[8..] == Base32(b[5..]);
      Base32Injective(a[5..], b[5..]);
      assert a == a[..5] + a[5..] && b == b[..5] + b[5..];
    }
  }

  function NewKeyId(random: seq<byte>): string
    requires |random| == 10
  {
    ID_PREFIX + Base32(random)
  }

  predicate IdChar(c: char) {
    'a' <= c <= 'z' || '0' <= c <= '9'
  }

  /** The renderer's check, ^k_[a-z0-9]+$ */
  predicate ValidKeyId(id: string) {
    |id| >= 3 && id[..2] == ID_PREFIX && forall i :: 2 <= i < |id| ==> IdChar(id[i])
  }

  predicate LowerOrDigits(s: string) {
    forall i :: 0 <= i < |s| ==> 97 <= s[i] as int <= 122 || 48 <= s[i] as int <= 57
  }

  /** The identifiers accepted: "k_" and then one or more lower-case letters and digits. */
  lemma ValidKeyIdIff(id: string)
    ensures ValidKeyId(id) <==> (exists rest: string :: id == "k_" + rest && rest != "" && LowerOrDigits(rest))
  {
    if ValidKeyId(id) {
      assert id == "k_" + id[2..];
    }
    if rest: string :| id == "k_" + rest && rest != "" && LowerOrDigits(rest) {
      assert id[..2] == "k_";
      assert forall i :: 2 <= i < |id| ==> id[i] == rest[i - 2];
    }
  }

  lemma {:induction false} Base32Chars(b: seq<byte>)
    requires |b| % 5 == 0
    ensures forall i :: 0 <= i < |Base32(b)| ==> IdChar(Base32(b)[i])
  {
    if b != [] {
      var q := Quintets(b[..5]);
      forall i | 0 <= i < 8 ensures IdChar(Letters(q)[i]) { LetterValue(q[i]); }
      Base32Chars(b[5..]);
    }
  }

  /** Every generated identifier passes the renderer's check, and no two inputs share one. */
  lemma GeneratedIds(a: seq<byte>, b: seq<byte>)
    requires |a| == 10 && |b| == 10
    ensures |NewKeyId(a)| == 18 && ValidKeyId(NewKeyId(a))
    ensures NewKeyId(a) == NewKeyId(b) ==> a == b
  {
    Base32Chars(a);
    if NewKeyId(a) == NewKeyId(b) {
      assert Base32(a) == NewKeyId(a)[2..] == NewKeyId(b)[2..] == Base32(b);
      Base32Injective(a, b);
    }
  }

  // ---------- the key Secret ----------

  const KEY_LABEL := "openeverest.io/ai-gateway-key"
  const OWNER_KIND_LABEL := "openeverest.io/ai-gateway-key-owner-kind"
  const OWNER_NAME_LABEL := "openeverest.io/ai-gateway-key-owner-name"
  const MANAGED_BY_LABEL := "app.kubernetes.io/managed-by"
  const PROVIDER_NAME := "provider-kserve"

  /** `id` and `models` are the key-id and models annotations and `key` the api_key entry;
      an absent one reads as the empty string. No step writes any other annotation or entry. */
  datatype Secret = Secret(labels: map<string, string>, id: string, models: string, key: string) {
    predicate Complete() { id != "" && key != "" }
  }

  const EMPTY_SECRET := Secret(map[], "", "", "")

  function OwnLabels(labels: map<string, string>, name: string): map<string, string> {
    labels[KEY_LABEL := "true"][OWNER_KIND_LABEL := "instance"][OWNER_NAME_LABEL := name][MANAGED_BY_LABEL := PROVIDER_NAME]
  }

  function WithKeyFields(s: Secret, ns: string, name: string, freshId: string, freshKey: string): Secret {
    Secret(OwnLabels(s.labels, name), if s.id == "" then freshId else s.id, Slashed(ns, name),
      if s.key == "" then freshKey else s.key)
  }

  /** What a merge patch from `from` to `to` does to another version: only what differs
      between the two is written. */
  function PatchLabels(from: map<string, string>, to: map<string, string>, current: map<string, string>): map<string, string> {
    current + map k | k in to && (k !in from || from[k] != to[k]) :: to[k]
  }

  function PatchField(from: string, to: string, current: string): string {
    if from == to then current else to
  }

  function Patch(from: Secret, to: Secret, current: Secret): Secret {
    Secret(PatchLabels(from.labels, to.labels, current.labels), PatchField(from.id, to.id, current.id),
      PatchField(from.models, to.models, current.models), PatchField(from.key, to.key, current.key))
  }

  /** One ensure step that read `cached`, possibly an old version: the new stored Secret and
      whether the step succeeded. */
  function Ensure(stored: Option<Secret>, cached: Option<Secret>, ns: string, name: string,
                  freshId: string, freshKey: string): (Option<Secret>, bool)
  {
    match cached
    case None =>
      if stored.Some? then (stored, false)
      else (Some(WithKeyFields(EMPTY_SECRET, ns, name, freshId, freshKey)), true)
    case Some(seen) =>
      var desired := WithKeyFields(seen, ns, name, freshId, freshKey);
      if desired == seen then (stored, true)
      else match stored
        case None => (None, false)
        case Some(current) => (Some(Patch(seen, desired, current)), true)
  }

  class SecretObject {
    var value: Secret

    constructor (s: Secret)
      ensures value == s
    {
      value := s;
    }

    method SetKeyFields(ns: string, name: string, freshId: string, freshKey: string)
      modifies this
      ensures value == WithKeyFields(old(value), ns, name, freshId, freshKey)
    {
      var labels := value.labels;
      labels := labels[KEY_LABEL := "true"];
      labels := labels[OWNER_KIND_LABEL := "instance"];
      labels := labels[OWNER_NAME_LABEL := name];
      labels := labels[MANAGED_BY_LABEL := PROVIDER_NAME];
      value := value.(labels := labels);
      value := value.(models := Slashed(ns, name));
      if value.id == "" {
        value := value.(id := freshId);
      }
      if value.key == "" {
        value := value.(key := freshKey);
      }
    }
  }

  /** The API server's copy of one Instance's key Secret. */
  class SecretStore {
    var stored: Option<Secret>

    method EnsureKey(cached: Option<Secret>, ns: string, name: string, freshId: string, freshKey: string)
      returns (ok: bool)
      modifies this
      ensures (stored, ok) == Ensure(old(stored), cached, ns, name, freshId, freshKey)
    {
      if cached.None? {
        ok := CreateKey(ns, name, freshId, freshKey);
        return;
      }
      var existing := cached.value;
      var desired := new SecretObject(existing);
      desired.SetKeyFields(ns, name, freshId, freshKey);
      if desired.value == existing {
        return true;
      }
      if stored.None? {
        return false;
      }
      stored := Some(Patch(existing, desired.value, stored.value));
      return true;
    }

    method CreateKey(ns: string, name: string, freshId: string, freshKey: string) returns (ok: bool)
      modifies this
      ensures (stored, ok) == Ensure(old(stored), None, ns, name, freshId, freshKey)
    {
      var secret := new SecretObject(EMPTY_SECRET);
      secret.SetKeyFields(ns, name, freshId, freshKey);
      if stored.Some? {
        return false;
      }
      stored := Some(secret.value);
      return true;
    }
  }

  // ---------- key stability ----------

  /** Exactly when an ensure step leaves the stored ID and value alone: it read no Secret, or
      the copy it read had both, or what it generated is what is stored. */
  lemma EnsureKeepsKeyIff(current: Secret, cached: Option<Secret>, ns: string, name: string,
                          freshId: string, freshKey: string)
    requires current.Complete() && freshId != "" && freshKey != ""
    ensures var (after, _) := Ensure(Some(current), cached, ns, name, freshId, freshKey);
      && after.Some?
      && (after.value.id == current.id && after.value.key == current.key <==>
          cached.None? || (
            && (cached.value.id != "" || freshId == current.id)
            && (cached.value.key != "" || freshKey == current.key)))
  {
  }

  /** A lost race to create the Secret is an error and writes nothing. */
  lemma LostRaceFails(current: Secret, ns: string, name: string, freshId: string, freshKey: string)
    ensures Ensure(Some(current), None, ns, name, freshId, freshKey) == (Some(current), false)
  {
  }

  /** A step that reads the current Secret succeeds and restores labels and model reference; it
      keeps an ID and a value that are there, each on its own, and fills in one that is not. */
  lemma EnsureRestores(current: Secret, ns: string, name: string, freshId: string, freshKey: string)
    ensures Ensure(Some(current), Some(current), ns, name, freshId, freshKey) ==
      (Some(Secret(OwnLabels(current.labels, name), if current.id != "" then current.id else freshId, Slashed(ns, name),
                   if current.key != "" then current.key else freshKey)), true)
  {
    var to := OwnLabels(current.labels, name);
    assert current.labels.Keys <= to.Keys;
    assert PatchLabels(current.labels, to, current.labels) == to;
  }

  /** The four labels that every step sees to. */
  predicate OwnLabel(key: string) {
    key == "openeverest.io/ai-gateway-key" || key == "openeverest.io/ai-gateway-key-owner-kind"
    || key == "openeverest.io/ai-gateway-key-owner-name" || key == "app.kubernetes.io/managed-by"
  }

  predicate Labelled(labels: map<string, string>, name: string) {
    && Reads(labels, "openeverest.io/ai-gateway-key", "true")
    && Reads(labels, "openeverest.io/ai-gateway-key-owner-kind", "instance")
    && Reads(labels, "openeverest.io/ai-gateway-key-owner-name", name)
    && Reads(labels, "app.kubernetes.io/managed-by", "provider-kserve")
  }

  predicate Reads(labels: map<string, string>, key: string, value: string) {
    key in labels && labels[key] == value
  }

  /** Right where the version read was wrong, and as stored where it was right. */
  predicate Relabelled(seen: map<string, string>, current: map<string, string>, after: map<string, string>, key: string, value: string) {
    if Reads(seen, key, value) then Reads(after, key, value) <==> Reads(current, key, value) else Reads(after, key, value)
  }

  lemma OwnLabelsMeaning(labels: map<string, string>, name: string)
    ensures Labelled(OwnLabels(labels, name), name)
    ensures forall key :: !OwnLabel(key) ==> (key in OwnLabels(labels, name) <==> key in labels)
    ensures forall key :: !OwnLabel(key) && key in labels ==> OwnLabels(labels, name)[key] == labels[key]
    ensures forall key :: OwnLabel(key) ==> key in OwnLabels(labels, name)
  {
    assert |KEY_LABEL| < |OWNER_KIND_LABEL| && MANAGED_BY_LABEL[0] == 'a' && KEY_LABEL[0] == 'o';
    assert OWNER_KIND_LABEL[36] == 'k' && OWNER_NAME_LABEL[36] == 'n';
  }

  /** A created Secret has just the four labels, the fresh ID and value, and its own reference. */
  lemma CreatedSecret(ns: string, name: string, freshId: string, freshKey: string)
    ensures var (after, ok) := Ensure(None, None, ns, name, freshId, freshKey);
      && ok && after.Some? && Labelled(after.value.labels, name) && (forall key :: key in after.value.labels <==> OwnLabel(key))
      && after.value.id == freshId && after.value.key == freshKey && after.value.models == ns + "/" + name
  {
    hide OwnLabels, OwnLabel;
    OwnLabelsMeaning(map[], name);
  }

  /** A step that writes over a Secret it has read in any version makes its labels right, unless
      the version read had the right value where the stored one has not, and leaves all others'
      labels as they are stored. */
  lemma PatchedLabels(current: Secret, seen: Secret, ns: string, name: string, freshId: string, freshKey: string)
    ensures var (after, ok) := Ensure(Some(current), Some(seen), ns, name, freshId, freshKey);
      && ok && after.Some?
      && (forall key :: !OwnLabel(key) ==> (key in after.value.labels <==> key in current.labels))
      && (forall key :: !OwnLabel(key) && key in current.labels ==> after.value.labels[key] == current.labels[key])
      && Relabelled(seen.labels, current.labels, after.value.labels, "openeverest.io/ai-gateway-key", "true")
      && Relabelled(seen.labels, current.labels, after.value.labels, "openeverest.io/ai-gateway-key-owner-kind", "instance")
      && Relabelled(seen.labels, current.labels, after.value.labels, "openeverest.io/ai-gateway-key-owner-name", name)
      && Relabelled(seen.labels, current.labels, after.value.labels, "app.kubernetes.io/managed-by", "provider-kserve")
      && (seen == current ==> Labelled(after.value.labels, name) && after.value.models == ns + "/" + name)
      && (seen.models != ns + "/" + name ==> after.value.models == ns + "/" + name)
  {
    hide OwnLabels, OwnLabel;
    OwnLabelsMeaning(seen.labels, name);
    var to := OwnLabels(seen.labels, name);
    assert forall key :: !OwnLabel(key) && key in to ==> key in seen.labels && seen.labels[key] == to[key];
    if seen == current { EnsureRestores(current, ns, name, freshId, freshKey); }
  }

  /** The ID, value and reference after a step that has read a version of a Secret: written where
      that version lacked them, as stored elsewhere. A version that lacks nothing is not written
      at all, and one whose Secret is gone cannot be. */
  lemma PatchedFields(stored: Option<Secret>, seen: Secret, ns: string, name: string, freshId: string, freshKey: string)
    ensures var (after, ok) := Ensure(stored, Some(seen), ns, name, freshId, freshKey);
      && (stored.Some? ==>
            && ok && after.Some?
            && after.value.id == (if seen.id == "" && freshId != "" then freshId else stored.value.id)
            && after.value.key == (if seen.key == "" && freshKey != "" then freshKey else stored.value.key)
            && after.value.models == (if seen.models != ns + "/" + name then ns + "/" + name else stored.value.models))
      && (stored.None? ==> after.None?)
      && (Labelled(seen.labels, name) && seen.models == ns + "/" + name && seen.Complete() ==> ok && after == stored)
      && (stored.None? && !(Labelled(seen.labels, name) && seen.models == ns + "/" + name && seen.Complete()) ==>
            (freshId != "" && freshKey != "" ==> !ok))
  {
    hide OwnLabels;
    OwnLabelsMeaning(seen.labels, name);
    UnchangedLabels(seen.labels, name);
  }

  lemma UnchangedLabels(labels: map<string, string>, name: string)
    ensures Labelled(labels, name) <==> OwnLabels(labels, name) == labels
  {
    var to := OwnLabels(labels, name);
    OwnLabelsMeaning(labels, name);
    if Labelled(labels, name) {
      assert to.Keys == labels.Keys;
      assert forall key :: key in labels ==> to[key] == labels[key];
    }
  }

  /** What can happen to one Instance's key Secret. `seen` is the version of the history an
      ensure step reads; `write` is somebody else's update, creation or (None) deletion. */
  datatype Event =
    | EnsureStep(seen: nat, freshId: string, freshKey: string)
    | Write(write: Option<Secret>)

  function Apply(history: seq<Option<Secret>>, e: Event, ns: string, name: string): Option<Secret>
    requires history != []
  {
    match e
    case EnsureStep(seen, freshId, freshKey) =>
      Ensure(history[|history| - 1], ReadVersion(history, seen), ns, name, freshId, freshKey).0
    case Write(write) => write
  }

  function Run(history: seq<Option<Secret>>, events: seq<Event>, ns: string, name: string): (r: seq<Option<Secret>>)
    requires history != []
    ensures |r| == |history| + |events| && history <= r
    decreases |events|
  {
    if events == [] then history
    else Run(history + [Apply(history, events[0], ns, name)], events[1..], ns, name)
  }

  predicate CompleteVersion(v: Option<Secret>) {
    v.Some? ==> v.value.Complete()
  }

  predicate CompleteEvent(e: Event) {
    match e
    case EnsureStep(_, freshId, freshKey) => freshId != "" && freshKey != ""
    case Write(write) => CompleteVersion(write)
  }

  /** The version an ensure step reads: an old one, or none yet. */
  function ReadVersion(history: seq<Option<Secret>>, seen: nat): Option<Secret> {
    if seen < |history| then history[seen] else None
  }

  /** When nobody ever stores a Secret without ID or value, no ensure step of any run, however
      stale its reads, changes the ID or value of the Secret that is there; and one that reads no
      Secret, and so loses the race to create it, leaves it as it is altogether. */
  lemma {:induction false} KeyStable(history: seq<Option<Secret>>, events: seq<Event>, ns: string, name: string)
    requires history != []
    requires forall i :: 0 <= i < |history| ==> CompleteVersion(history[i])
    requires forall i :: 0 <= i < |events| ==> CompleteEvent(events[i])
    ensures var versions := Run(history, events, ns, name);
      forall i :: 0 <= i < |events| && events[i].EnsureStep? && versions[|history| - 1 + i].Some? ==>
        var before, after := versions[|history| - 1 + i], versions[|history| + i];
        && after.Some? && after.value.id == before.value.id && after.value.key == before.value.key
        && (ReadVersion(versions[..|history| + i], events[i].seen).None? ==> after == before)
    decreases |events|
  {
    if events != [] {
      var e, next := events[0], Apply(history, events[0], ns, name);
      var current := history[|history| - 1];
      if e.EnsureStep? {
        var cached := ReadVersion(history, e.seen);
        if current.Some? {
          LostRaceFails(current.value, ns, name, e.freshId, e.freshKey);
          EnsureKeepsKeyIff(current.value, cached, ns, name, e.freshId, e.freshKey);
        }
      }
      KeyStable(history + [next], events[1..], ns, name);
      var versions := Run(history, events, ns, name);
      assert versions == Run(history + [next], events[1..], ns, name);
      assert versions[|history| - 1] == current && versions[|history|] == next;
      forall i | 0 <= i < |events| && events[i].EnsureStep? && versions[|history| - 1 + i].Some?
        ensures var before, after := versions[|history| - 1 + i], versions[|history| + i];
          && after.Some? && after.value.id == before.value.id && after.value.key == before.value.key
          && (ReadVersion(versions[..|history| + i], events[i].seen).None? ==> after == before)
      {
        assert versions[..|history|] == history;
        if i > 0 {
          assert events[1..][i - 1] == events[i];
          assert versions[|history + [next]| - 1 + (i - 1)] == versions[|history| - 1 + i];
        }
      }
    }
  }

  /** Without that assumption it fails: a Secret first stored blank is filled in by one step
      and given another key by the next, whose cache still shows the blank version. */
  lemma BlankSecretRekeyed(ns: string, name: string)
    ensures var events := [Write(Some(EMPTY_SECRET)), EnsureStep(1, "k_a", "x"), EnsureStep(1, "k_b", "y")];
      var versions := Run([None], events, ns, name);
      && versions[2].Some? && versions[2].value.id == "k_a" && versions[2].value.key == "x"
      && versions[3].Some? && versions[3].value.id == "k_b" && versions[3].value.key == "y"
  {
    var first, second := EnsureStep(1, "k_a", "x"), EnsureStep(1, "k_b", "y");
    var h1 := [None, Some(EMPTY_SECRET)];
    var h2 := h1 + [Apply(h1, first, ns, name)];
    var h3 := h2 + [Apply(h2, second, ns, name)];
    RunStep([None], [Write(Some(EMPTY_SECRET)), first, second], ns, name);
    RunStep(h1, [first, second], ns, name);
    RunStep(h2, [second], ns, name);
  }

  lemma RunStep(history: seq<Option<Secret>>, events: seq<Event>, ns: string, name: string)
    requires history != [] && events != []
    ensures Run(history, events, ns, name) == Run(history + [Apply(history, events[0], ns, name)], events[1..], ns, name)
  {
  }
}
