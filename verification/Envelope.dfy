// The credential envelope version.keyId.iv.tag.ciphertext and the keyring that opens it
// (secure-network-credentials.ts).
module Envelope {
  import opened Common
  import opened Text
  import opened Base64Url

  datatype Key = Key(id: string, bytes: seq<byte>)

  // The fields that are set.
  type Credentials = map<string, string>

  datatype Keyring = Keyring(activeId: string, keys: seq<Key>)

  // The three settings, None when unset.
  datatype Config = Config(ring: Option<string>, legacy: Option<string>, active: Option<string>)

  predicate IsSpace(c: char) { c == ' ' || c == '\t' || c == '\n' || c == '\r' }

  function TrimLeft(s: string): string { if s != "" && IsSpace(s[0]) then TrimLeft(s[1..]) else s }

  function TrimRight(s: string): string {
    if s != "" && IsSpace(s[|s| - 1]) then TrimRight(s[..|s| - 1]) else s
  }

  function Trim(s: string): string { TrimRight(TrimLeft(s)) }

  // A setting that is unset or blank counts as missing.
  function Setting(s: Option<string>): string { if s.Some? then Trim(s.value) else "" }

  predicate IsHexDigit(c: char) { '0' <= c <= '9' || 'a' <= c <= 'f' || 'A' <= c <= 'F' }

  function HexDigit(c: char): (d: int)
    requires IsHexDigit(c)
    ensures 0 <= d < 16
  {
    if c <= '9' then c as int - '0' as int
    else if c <= 'F' then c as int - 'A' as int + 10
    else c as int - 'a' as int + 10
  }

  predicate IsHex(s: string) { forall i :: 0 <= i < |s| ==> IsHexDigit(s[i]) }

  predicate IsKey(s: string) { |s| == 64 && IsHex(s) }

  function FromHex(s: string): (b: seq<byte>)
    requires IsKey(s)
    ensures |b| == 32
  {
    seq(32, i requires 0 <= i < 32 => HexDigit(s[2 * i]) * 16 + HexDigit(s[2 * i + 1]))
  }

  predicate IsWordChar(c: char) { 'a' <= c <= 'z' || 'A' <= c <= 'Z' || '0' <= c <= '9' || c == '_' || c == '-' }

  predicate IsKeyId(s: string) { 1 <= |s| <= 32 && forall i :: 0 <= i < |s| ==> IsWordChar(s[i]) }

  function IndexOf(s: string, c: char): (i: int)
    ensures i == -1 <==> c !in s
    ensures i != -1 ==> 0 <= i < |s| && s[i] == c && c !in s[..i]
  {
    if s == "" then -1
    else if s[0] == c then 0
    else
      var rest := IndexOf(s[1..], c);
      assert rest != -1 ==> s[..rest + 1] == [s[0]] + s[1..][..rest];
      if rest == -1 then -1 else rest + 1
  }

  // One id:hex entry of the ring.
  function ParseItem(item: string): Option<Key> {
    var separator := IndexOf(item, ':');
    if separator < 1 then None
    else
      var id := Trim(item[..separator]);
      var encoded := Trim(item[separator + 1..]);
      if IsKeyId(id) && IsKey(encoded) then Some(Key(id, FromHex(encoded))) else None
  }

  function Find(keys: seq<Key>, id: string): (found: Option<seq<byte>>)
    ensures found.None? <==> forall k :: 0 <= k < |keys| ==> keys[k].id != id
    ensures found.Some? ==> Key(id, found.value) in keys
  {
    if keys == [] then None else if keys[0].id == id then Some(keys[0].bytes) else Find(keys[1..], id)
  }

  // The first items of the ring; any malformed item or repeated id fails the whole ring.
  function ParseUpTo(items: seq<string>, n: nat): Option<seq<Key>>
    requires n <= |items|
  {
    if n == 0 then Some([])
    else match ParseUpTo(items, n - 1)
      case None => None
      case Some(keys) =>
        match ParseItem(items[n - 1])
        case None => None
        case Some(key) => if Find(keys, key.id).Some? then None else Some(keys + [key])
  }

  function ParseRing(raw: string): Option<seq<Key>> {
    if raw == "" then Some([]) else ParseUpTo(Split(raw, ','), |Split(raw, ',')|)
  }

  method ReadRing(raw: string) returns (r: Option<seq<Key>>)
    ensures r == ParseRing(raw)
  {
    if raw == "" { return Some([]); }
    var keys: seq<Key> := [];
    var items := Split(raw, ',');
    var n := 0;
    while n < |items|
      invariant 0 <= n <= |items|
      invariant ParseUpTo(items, n) == Some(keys)
    {
      var key := ParseItem(items[n]);
      if key.None? || Find(keys, key.value.id).Some? {
        FailsForGood(items, n + 1, |items|);
        return None;
      }
      keys := keys + [key.value];
      n := n + 1;
    }
    r := Some(keys);
  }

  lemma {:induction false} FailsForGood(items: seq<string>, n: nat, m: nat)
    requires n <= m <= |items| && ParseUpTo(items, n).None?
    ensures ParseUpTo(items, m).None?
    decreases m
  {
    if n < m { FailsForGood(items, n, m - 1); }
  }

  const LEGACY := "legacy"
  const FIRST := "1"

  // The legacy key stands in under two ids the ring does not use.
  function WithLegacy(keys: seq<Key>, legacy: string): seq<Key> {
    if !IsKey(legacy) || Find(keys, LEGACY).Some? then keys
    else
      var more := keys + [Key(LEGACY, FromHex(legacy))];
      if Find(more, FIRST).Some? then more else more + [Key(FIRST, FromHex(legacy))]
  }

  function Load(c: Config): Option<Keyring> {
    match ParseRing(Setting(c.ring))
    case None => None
    case Some(parsed) =>
      var keys := WithLegacy(parsed, Setting(c.legacy));
      var chosen := Setting(c.active);
      var activeId := if chosen != "" then chosen
                      else if Find(keys, FIRST).Some? then FIRST else if keys != [] then keys[0].id else "";
      if activeId == "" || Find(keys, activeId).None? then None else Some(Keyring(activeId, keys))
  }

  // ---- The cipher ----

  // AES-256-GCM and the JSON text of credentials, given as functions.
  datatype Cipher = Cipher(seal: (seq<byte>, seq<byte>, seq<byte>) -> (seq<byte>, seq<byte>),
                               unseal: (seq<byte>, seq<byte>, seq<byte>, seq<byte>) -> Option<seq<byte>>,
                               write: Credentials -> seq<byte>, read: seq<byte> -> Option<Credentials>)

  const IV_BYTES := 12
  const TAG_BYTES := 16

  // Opening what was sealed under the same key and iv gives it back; a tag has 16 bytes and the ciphertext the length
  // of the plaintext; credentials have a non-empty text that reads back.
  ghost predicate Sound(f: Cipher) {
    && (forall key, iv, plain :: |key| == 32 && |iv| == IV_BYTES ==>
          var (tag, text) := f.seal(key, iv, plain);
          f.unseal(key, iv, tag, text) == Some(plain) && |tag| == TAG_BYTES && |text| == |plain|)
    && (forall c :: f.write(c) != [] && f.read(f.write(c)) == Some(c))
  }

  function Encrypt(ring: Keyring, f: Cipher, iv: seq<byte>, credentials: Credentials): string
    requires Find(ring.keys, ring.activeId).Some?
  {
    var (tag, text) := f.seal(Find(ring.keys, ring.activeId).value, iv, f.write(credentials));
    Join(["2", ring.activeId, Encode(iv), Encode(tag), Encode(text)], '.')
  }

  function Open(keys: seq<Key>, f: Cipher, keyId: string, ivText: string, tagText: string, cipherText: string)
    : Option<Credentials>
  {
    if keyId == "" || ivText == "" || tagText == "" || cipherText == "" then None
    else match Find(keys, keyId)
      case None => None
      case Some(key) =>
        var iv, tag, text := Decode(ivText), Decode(tagText), Decode(cipherText);
        if |iv| != IV_BYTES || |tag| != TAG_BYTES || text == [] then None
        else match f.unseal(key, iv, tag, text)
          case None => None
          case Some(plain) => f.read(plain)
  }

  // None for each of decrypt's errors.
  function Decrypt(keys: seq<Key>, f: Cipher, payload: string): Option<Credentials> {
    var parts := Split(payload, '.');
    if parts[0] == "1" && |parts| == 4 then Open(keys, f, FIRST, parts[1], parts[2], parts[3])
    else if parts[0] == "2" && |parts| == 5 then Open(keys, f, parts[1], parts[2], parts[3], parts[4])
    else None
  }

  // ---- Laws ----

  ghost predicate KeysOk(keys: seq<Key>) {
    && (forall k :: 0 <= k < |keys| ==> IsKeyId(keys[k].id) && |keys[k].bytes| == 32)
    && (forall j, k :: 0 <= j < k < |keys| ==> keys[j].id != keys[k].id)
  }

  lemma AddKey(keys: seq<Key>, key: Key)
    requires KeysOk(keys) && IsKeyId(key.id) && |key.bytes| == 32 && Find(keys, key.id).None?
    ensures KeysOk(keys + [key])
  {
  }

  lemma {:induction false} ParsedOk(items: seq<string>, n: nat)
    requires n <= |items| && ParseUpTo(items, n).Some?
    ensures KeysOk(ParseUpTo(items, n).value)
  {
    if n > 0 {
      ParsedOk(items, n - 1);
      AddKey(ParseUpTo(items, n - 1).value, ParseItem(items[n - 1]).value);
    }
  }

  lemma LegacyOk(keys: seq<Key>, legacy: string)
    requires KeysOk(keys)
    ensures KeysOk(WithLegacy(keys, legacy))
  {
    if IsKey(legacy) && Find(keys, LEGACY).None? {
      AddKey(keys, Key(LEGACY, FromHex(legacy)));
      var more := keys + [Key(LEGACY, FromHex(legacy))];
      if Find(more, FIRST).None? { AddKey(more, Key(FIRST, FromHex(legacy))); }
    }
  }

  // Every loaded ring holds distinct well-formed ids, its active one among them, with 32-byte keys.
  lemma LoadedOk(c: Config)
    requires Load(c).Some?
    ensures KeysOk(Load(c).value.keys) && Find(Load(c).value.keys, Load(c).value.activeId).Some?
    ensures IsKeyId(Load(c).value.activeId)
  {
    var raw := Setting(c.ring);
    if raw != "" { ParsedOk(Split(raw, ','), |Split(raw, ',')|); }
    LegacyOk(ParseRing(raw).value, Setting(c.legacy));
  }

  lemma {:induction false} FindIn(keys: seq<Key>, key: Key)
    requires KeysOk(keys) && key in keys
    ensures Find(keys, key.id) == Some(key.bytes)
  {
    if keys[0] != key { FindIn(keys[1..], key); }
  }

  lemma {:induction false} ItemParsed(items: seq<string>, n: nat, k: nat)
    requires k < n <= |items| && ParseUpTo(items, n).Some?
    ensures ParseItem(items[k]).Some? && ParseItem(items[k]).value in ParseUpTo(items, n).value
  {
    if k < n - 1 { ItemParsed(items, n - 1, k); }
  }

  // A ring keeps the key of every item it lists, whatever was added around it and whichever id is active.
  lemma ListedKeyIsHeld(c: Config, k: nat)
    requires Load(c).Some? && Setting(c.ring) != "" && k < |Split(Setting(c.ring), ',')|
    ensures var key := ParseItem(Split(Setting(c.ring), ',')[k]);
      key.Some? && Find(Load(c).value.keys, key.value.id) == Some(key.value.bytes)
  {
    var items := Split(Setting(c.ring), ',');
    LoadedOk(c);
    ItemParsed(items, |items|, k);
    FindIn(Load(c).value.keys, ParseItem(items[k]).value);
  }

  lemma SealedOpens(keys: seq<Key>, f: Cipher, key: seq<byte>, id: string, iv: seq<byte>, credentials: Credentials)
    requires Sound(f) && |iv| == IV_BYTES && |key| == 32 && id != "" && Find(keys, id) == Some(key)
    ensures var (tag, text) := f.seal(key, iv, f.write(credentials));
      Open(keys, f, id, Encode(iv), Encode(tag), Encode(text)) == Some(credentials)
  {
    var (tag, text) := f.seal(key, iv, f.write(credentials));
    RoundTrip(iv);
    RoundTrip(tag);
    RoundTrip(text);
  }

  lemma EnvelopeSplits(head: seq<string>, iv: seq<byte>, tag: seq<byte>, text: seq<byte>)
    requires |head| > 0 && forall k :: 0 <= k < |head| ==> '.' !in head[k]
    ensures var parts := head + [Encode(iv), Encode(tag), Encode(text)];
      Split(Join(parts, '.'), '.') == parts
  {
    RoundTrip(iv);
    RoundTrip(tag);
    RoundTrip(text);
    SplitJoin(head + [Encode(iv), Encode(tag), Encode(text)], '.');
  }

  lemma EncryptedOpens(ring: Keyring, keys: seq<Key>, f: Cipher, key: seq<byte>, iv: seq<byte>,
                      credentials: Credentials)
    requires Sound(f) && |iv| == IV_BYTES && |key| == 32 && IsKeyId(ring.activeId)
    requires Find(ring.keys, ring.activeId) == Find(keys, ring.activeId) == Some(key)
    ensures Decrypt(keys, f, Encrypt(ring, f, iv, credentials)) == Some(credentials)
  {
    var (tag, text) := f.seal(key, iv, f.write(credentials));
    var head := ["2", ring.activeId];
    EnvelopeSplits(head, iv, tag, text);
    assert head + [Encode(iv), Encode(tag), Encode(text)] ==
           ["2", ring.activeId, Encode(iv), Encode(tag), Encode(text)];
    SealedOpens(keys, f, key, ring.activeId, iv, credentials);
  }

  // Credentials encrypted under one configuration decrypt under any later one that still holds the key under its id.
  lemma RotationKeepsReadable(writing: Config, later: Config, f: Cipher, iv: seq<byte>, credentials: Credentials)
    requires Load(writing).Some? && Load(later).Some? && Sound(f) && |iv| == IV_BYTES
    requires var id := Load(writing).value.activeId;
      Find(Load(later).value.keys, id) == Find(Load(writing).value.keys, id)
    ensures Find(Load(writing).value.keys, Load(writing).value.activeId).Some?
    ensures Decrypt(Load(later).value.keys, f, Encrypt(Load(writing).value, f, iv, credentials)) == Some(credentials)
  {
    var ring := Load(writing).value;
    LoadedOk(writing);
    EncryptedOpens(ring, Load(later).value.keys, f, Find(ring.keys, ring.activeId).value, iv, credentials);
  }

  // A version 1 envelope, which names no key, opens under any configuration that holds its key as 1.
  lemma LegacyStaysReadable(keys: seq<Key>, f: Cipher, key: seq<byte>, iv: seq<byte>, credentials: Credentials)
    requires Sound(f) && |iv| == IV_BYTES && |key| == 32 && Find(keys, FIRST) == Some(key)
    ensures var (tag, text) := f.seal(key, iv, f.write(credentials));
      Decrypt(keys, f, Join(["1", Encode(iv), Encode(tag), Encode(text)], '.')) == Some(credentials)
  {
    var (tag, text) := f.seal(key, iv, f.write(credentials));
    EnvelopeSplits(["1"], iv, tag, text);
    assert ["1"] + [Encode(iv), Encode(tag), Encode(text)] == ["1", Encode(iv), Encode(tag), Encode(text)];
    SealedOpens(keys, f, key, FIRST, iv, credentials);
  }

  // The legacy setting alone provides key 1, unless the ring takes the id 1 or legacy.
  lemma LegacyProvidesFirst(c: Config)
    requires Load(c).Some? && IsKey(Setting(c.legacy))
    requires Find(ParseRing(Setting(c.ring)).value, LEGACY).None? && Find(ParseRing(Setting(c.ring)).value, FIRST).None?
    ensures Find(Load(c).value.keys, FIRST) == Some(FromHex(Setting(c.legacy)))
  {
    LoadedOk(c);
    var keys := Load(c).value.keys;
    var first := Key(FIRST, FromHex(Setting(c.legacy)));
    assert keys[|keys| - 1] == first;
    FindIn(keys, first);
  }
}
