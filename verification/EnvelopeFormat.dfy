// The forms the credential code writes and reads: the envelope's five parts, ring items, keys in hexadecimal, the
// base64url alphabet, and which key is active.
module EnvelopeFormat {
  import opened Common
  import opened Text
  import opened Base64Url
  import opened Envelope

  // ---- base64url ----

  // The alphabet of section 5 of RFC 4648: A to Z, a to z, 0 to 9, hyphen, underscore. Reading also takes the last two
  // symbols of section 4, and skips every other character.
  lemma SymbolsAreTheAlphabet(d: sextet, c: char)
    ensures Symbol(0) == 'A' && Symbol(26) == 'a' && Symbol(52) == '0' && Symbol(62) == '-' && Symbol(63) == '_'
    ensures d !in {25, 51, 61, 62, 63} ==> Symbol(d + 1) as int == Symbol(d) as int + 1
    ensures Digit('+') == Some(62) && Digit('/') == Some(63)
    ensures Digit(c).Some? && c != '+' && c != '/' ==> Symbol(Digit(c).value) == c
  {
  }

  // Three bytes are four symbols, high bits first; one or two bytes are two or three.
  lemma BitsComeHighFirst(a: byte, b: byte, c: byte, rest: seq<byte>)
    ensures var s := Sextets([a, b, c] + rest);
      && |s| == 4 + |Sextets(rest)| && s[4..] == Sextets(rest)
      && s[0] as int * 262144 + s[1] as int * 4096 + s[2] as int * 64 + s[3] as int
         == a as int * 65536 + b as int * 256 + c as int
    ensures var s := Sextets([a]); |s| == 2 && s[0] as int * 64 + s[1] as int == a as int * 16
    ensures var s := Sextets([a, b]);
      |s| == 3 && s[0] as int * 4096 + s[1] as int * 64 + s[2] as int == a as int * 1024 + b as int * 4
  {
    assert ([a, b, c] + rest)[3..] == rest;
  }

  // ---- Keys ----

  // Hexadecimal digits count from 0 to 15, in either case.
  lemma HexDigitsCount(c: char, d: int)
    requires 0 <= d < 16
    ensures IsHexDigit(c) && HexDigit(c) == d <==> c == "0123456789abcdef"[d] || c == "0123456789ABCDEF"[d]
  {
  }

  // A key is 32 bytes from 64 digits, the first of each pair being the high one.
  lemma KeysReadInPairs(s: string, i: nat)
    requires IsKey(s) && i < 32
    ensures |s| == 64 && FromHex(s)[i] / 16 == HexDigit(s[2 * i]) && FromHex(s)[i] % 16 == HexDigit(s[2 * i + 1])
  {
  }

  // An id has 1 to 32 symbols of base64url.
  lemma IdsAreWords(s: string)
    ensures IsKeyId(s) <==>
            1 <= |s| <= 32 && forall i :: 0 <= i < |s| ==> Digit(s[i]).Some? && s[i] != '+' && s[i] != '/'
  {
  }

  // ---- Settings ----

  predicate Blank(s: string) {
    forall i :: 0 <= i < |s| ==> s[i] == ' ' || s[i] == '\t' || s[i] == '\n' || s[i] == '\r'
  }

  lemma {:induction false} LeftTrimmed(s: string) returns (blanks: string)
    ensures s == blanks + TrimLeft(s) && Blank(blanks)
    ensures TrimLeft(s) != "" ==> !Blank(TrimLeft(s)[..1])
  {
    blanks := "";
    if s != "" && IsSpace(s[0]) {
      var rest := LeftTrimmed(s[1..]);
      blanks := [s[0]] + rest;
    }
  }

  lemma {:induction false} RightTrimmed(s: string) returns (blanks: string)
    ensures s == TrimRight(s) + blanks && Blank(blanks)
    ensures TrimRight(s) != "" ==> !Blank(TrimRight(s)[|TrimRight(s)| - 1..])
  {
    blanks := "";
    if s != "" && IsSpace(s[|s| - 1]) {
      var rest := RightTrimmed(s[..|s| - 1]);
      blanks := rest + [s[|s| - 1]];
      assert s == s[..|s| - 1] + [s[|s| - 1]];
    }
  }

  // A setting counts without the blanks around it, and a missing one as empty.
  lemma SettingsAreTrimmed(s: string) returns (left: string, right: string)
    ensures s == left + Setting(Some(s)) + right && Blank(left) && Blank(right)
    ensures Setting(Some(s)) != "" ==>
              !Blank(Setting(Some(s))[..1]) && !Blank(Setting(Some(s))[|Setting(Some(s))| - 1..])
    ensures Setting(None) == ""
  {
    left := LeftTrimmed(s);
    right := RightTrimmed(TrimLeft(s));
    var t := Setting(Some(s));
    if t != "" { assert t[..1] == TrimLeft(s)[..1]; }
  }

  lemma {:induction false} NothingToTrim(s: string)
    requires s != "" ==> !IsSpace(s[0]) && !IsSpace(s[|s| - 1])
    ensures Trim(s) == s
  {
  }

  // An item id:hex is read as that key; an item without a colon, or with nothing before it, is malformed.
  lemma ItemsAreIdAndKey(id: string, hex: string, other: string)
    requires IsKeyId(id) && IsKey(hex) && (':' !in other || other[0] == ':')
    ensures ParseItem(id + ":" + hex) == Some(Key(id, FromHex(hex))) && ParseItem(other) == None
  {
    var item := id + ":" + hex;
    ColonIsFound(id, hex);
    assert item[..|id|] == id && item[|id| + 1..] == hex;
    NothingToTrim(id);
    NothingToTrim(hex);
    if ':' in other {
      assert other == "" + ":" + other[1..];
      ColonIsFound("", other[1..]);
    }
  }

  lemma {:induction false} ColonIsFound(id: string, hex: string)
    requires ':' !in id
    ensures IndexOf(id + ":" + hex, ':') == |id|
  {
    if id != "" {
      ColonIsFound(id[1..], hex);
      assert (id + ":" + hex)[1..] == id[1..] + ":" + hex;
    }
  }

  // The active key is the one chosen, or 1 if it is held, or the first; a ring without it does not load.
  lemma ActiveKeyIsChosen(c: Config)
    requires ParseRing(Setting(c.ring)).Some?
    ensures var keys := WithLegacy(ParseRing(Setting(c.ring)).value, Setting(c.legacy));
      var chosen, first := Setting(c.active), exists k :: 0 <= k < |keys| && keys[k].id == "1";
      && (Load(c).Some? ==> Load(c).value.keys == keys)
      && (chosen != "" ==> (Load(c).Some? <==> exists k :: 0 <= k < |keys| && keys[k].id == chosen))
      && (chosen != "" && Load(c).Some? ==> Load(c).value.activeId == chosen)
      && (chosen == "" && first ==> Load(c).Some? && Load(c).value.activeId == "1")
      && (chosen == "" && !first ==> (Load(c).Some? <==> keys != []))
      && (chosen == "" && !first && keys != [] ==> Load(c).value.activeId == keys[0].id)
  {
    var raw := Setting(c.ring);
    if raw != "" { ParsedOk(Split(raw, ','), |Split(raw, ',')|); }
    LegacyOk(ParseRing(raw).value, Setting(c.legacy));
  }

  // The legacy key is added under the ids legacy and 1, each only if the ring does not use it, and neither if it uses
  // legacy.
  lemma LegacyKeyIsAdded(keys: seq<Key>, legacy: string)
    ensures var uses := exists k :: 0 <= k < |keys| && keys[k].id == "legacy";
      var usesFirst := exists k :: 0 <= k < |keys| && keys[k].id == "1";
      && (!IsKey(legacy) || uses ==> WithLegacy(keys, legacy) == keys)
      && (IsKey(legacy) && !uses ==>
            WithLegacy(keys, legacy) == keys + [Key("legacy", FromHex(legacy))]
                                        + if usesFirst then [] else [Key("1", FromHex(legacy))])
  {
    if IsKey(legacy) && Find(keys, "legacy").None? {
      var more := keys + [Key("legacy", FromHex(legacy))];
      assert more[|keys|].id == "legacy" && "legacy" != "1";
      assert Find(more, "1").Some? <==> exists k :: 0 <= k < |keys| && keys[k].id == "1" by {
        if Find(more, "1").Some? {
          var k :| 0 <= k < |more| && more[k] == Key("1", Find(more, "1").value);
          assert k < |keys| && keys[k] == more[k];
        }
        if exists k :: 0 <= k < |keys| && keys[k].id == "1" {
          var k :| 0 <= k < |keys| && keys[k].id == "1";
          assert more[k].id == "1";
        }
      }
    }
  }

  // ---- Envelopes ----

  // An envelope is the version 2, the active key's id, and iv, tag and ciphertext in base64url, with dots between.
  lemma EnvelopeHasFiveParts(ring: Keyring, f: Cipher, iv: seq<byte>, credentials: Credentials)
    requires IsKeyId(ring.activeId) && Find(ring.keys, ring.activeId).Some?
    ensures var (tag, text) := f.seal(Find(ring.keys, ring.activeId).value, iv, f.write(credentials));
      Split(Encrypt(ring, f, iv, credentials), '.') == ["2", ring.activeId, Encode(iv), Encode(tag), Encode(text)]
  {
    var (tag, text) := f.seal(Find(ring.keys, ring.activeId).value, iv, f.write(credentials));
    var head := ["2", ring.activeId];
    EnvelopeSplits(head, iv, tag, text);
    assert head + [Encode(iv), Encode(tag), Encode(text)] ==
           ["2", ring.activeId, Encode(iv), Encode(tag), Encode(text)];
  }

  // What decrypts is a version 1 envelope of four parts or a version 2 one of five, none of those that count empty,
  // whose key is held, whose iv has 12 bytes and tag 16, and whose ciphertext that key opens.
  lemma OnlyEnvelopesDecrypt(keys: seq<Key>, f: Cipher, payload: string, credentials: Credentials)
    requires Decrypt(keys, f, payload) == Some(credentials)
    ensures var p := Split(payload, '.');
      && ((p[0] == "1" && |p| == 4) || (p[0] == "2" && |p| == 5))
      && var (id, n) := if p[0] == "1" then ("1", 1) else (p[1], 2);
         && id != "" && Find(keys, id).Some? && p[n] != "" && p[n + 1] != "" && p[n + 2] != ""
         && |Decode(p[n])| == 12 && |Decode(p[n + 1])| == 16 && Decode(p[n + 2]) != []
         && var plain := f.unseal(Find(keys, id).value, Decode(p[n]), Decode(p[n + 1]), Decode(p[n + 2]));
            plain.Some? && f.read(plain.value) == Some(credentials)
  {
  }
}
