/**
 * lib/utils.js: listing-card parsing, OpenSSL-style key derivation and envelope decryption,
 * and query-string parsing.
 */
module Utils {
  import opened Wrappers
  import opened JsString
  import opened Foreign
  import opened Upstream

  // ============================================================ key derivation

  /** The bytes of `Buffer.from('Salted__')`, the magic that opens a salted OpenSSL envelope. */
  const SALTED: seq<byte> := [0x53, 0x61, 0x6c, 0x74, 0x65, 0x64, 0x5f, 0x5f]

  /**
   * Block `D_k` of OpenSSL's `EVP_BytesToKey` with one round: `D_0 = H(password ‖ salt)`
   * (the previous block starts empty) and `D_{k+1} = H(D_k ‖ password ‖ salt)`.
   */
  function Block(h: seq<byte> -> Digest, password: seq<byte>, salt: seq<byte>, k: nat): Digest {
    if k == 0 then h(password + salt) else h(Block(h, password, salt, k - 1) + password + salt)
  }

  /** The buffer `d` after `n` rounds of the loop: `D_0 ‖ … ‖ D_{n-1}`. */
  function Stretch(h: seq<byte> -> Digest, password: seq<byte>, salt: seq<byte>, n: nat): (d: seq<byte>)
    ensures |d| == 16 * n
  {
    if n == 0 then [] else Stretch(h, password, salt, n - 1) + Block(h, password, salt, n - 1)
  }

  /** How many rounds the loop makes to reach `total` bytes: the least `n` with `16·n ≥ total`. */
  function Rounds(total: nat): (n: nat)
    ensures 16 * n >= total
    ensures n == 0 || 16 * (n - 1) < total
  {
    (total + 15) / 16
  }

  datatype KeyIv = KeyIv(key: seq<byte>, iv: seq<byte>)

  /** The key and IV that `opensslKeyIv` returns: the first `keyLen` bytes of the buffer and the `ivLen` after them. */
  function DeriveKeyIv(h: seq<byte> -> Digest, password: seq<byte>, salt: seq<byte>, keyLen: nat, ivLen: nat): (m: KeyIv)
    ensures |m.key| == keyLen && |m.iv| == ivLen
    ensures m.key + m.iv == Stretch(h, password, salt, Rounds(keyLen + ivLen))[..keyLen + ivLen]
  {
    var d := Stretch(h, password, salt, Rounds(keyLen + ivLen));
    assert d[..keyLen + ivLen] == d[..keyLen] + d[keyLen..keyLen + ivLen];
    KeyIv(d[..keyLen], d[keyLen..keyLen + ivLen])
  }

  /** `opensslKeyIv(password, salt, keyLen, ivLen)`: grows the buffer one digest at a time, then slices it. */
  method OpensslKeyIv(h: seq<byte> -> Digest, password: seq<byte>, salt: seq<byte>, keyLen: nat, ivLen: nat)
    returns (key: seq<byte>, iv: seq<byte>)
    ensures |key| == keyLen && |iv| == ivLen
    ensures KeyIv(key, iv) == DeriveKeyIv(h, password, salt, keyLen, ivLen)
  {
    var d: seq<byte> := [];
    var di: seq<byte> := [];
    ghost var n: nat := 0;
    while |d| < keyLen + ivLen
      invariant d == Stretch(h, password, salt, n)
      invariant n == 0 ==> di == []
      invariant n > 0 ==> di == Block(h, password, salt, n - 1)
      invariant n <= Rounds(keyLen + ivLen)
      decreases keyLen + ivLen - |d|
    {
      assert n == 0 ==> di + password + salt == password + salt;
      di := h(di + password + salt);
      d := d + di;
      n := n + 1;
    }
    key := d[..keyLen];
    iv := d[keyLen..keyLen + ivLen];
  }

  /** Block `k` of the buffer sits at bytes `16k .. 16k+16`. */
  lemma {:induction false} StretchBlock(h: seq<byte> -> Digest, password: seq<byte>, salt: seq<byte>, n: nat, k: nat)
    requires k < n
    ensures Stretch(h, password, salt, n)[16 * k..16 * k + 16] == Block(h, password, salt, k)
  {
    var prev := Stretch(h, password, salt, n - 1);
    assert Stretch(h, password, salt, n) == prev + Block(h, password, salt, n - 1);
    if k < n - 1 {
      StretchBlock(h, password, salt, n - 1, k);
      assert (prev + Block(h, password, salt, n - 1))[16 * k..16 * k + 16] == prev[16 * k..16 * k + 16];
    } else {
      assert (prev + Block(h, password, salt, n - 1))[16 * k..16 * k + 16] == Block(h, password, salt, n - 1);
    }
  }

  /** When the loop exits the buffer holds at least `keyLen + ivLen` bytes, a whole number of digests, and one digest fewer would not have been enough. */
  lemma LoopExit(h: seq<byte> -> Digest, password: seq<byte>, salt: seq<byte>, keyLen: nat, ivLen: nat)
    ensures var d := Stretch(h, password, salt, Rounds(keyLen + ivLen));
      |d| >= keyLen + ivLen && |d| % 16 == 0 && (|d| == 0 || |d| - 16 < keyLen + ivLen)
  {
  }

  /** With the defaults (`keyLen = 32`, `ivLen = 16`) the loop runs three times: the key is `D_0 ‖ D_1` and the IV is `D_2`. */
  lemma DefaultKeyIv(h: seq<byte> -> Digest, password: seq<byte>, salt: seq<byte>)
    ensures Rounds(32 + 16) == 3
    ensures var d0 := h(password + salt);
      var d1 := h(d0 + password + salt);
      var d2 := h(d1 + password + salt);
      DeriveKeyIv(h, password, salt, 32, 16) == KeyIv(d0 + d1, d2)
  {
    var d := Stretch(h, password, salt, 3);
    var m := DeriveKeyIv(h, password, salt, 32, 16);
    StretchBlock(h, password, salt, 3, 0);
    StretchBlock(h, password, salt, 3, 1);
    StretchBlock(h, password, salt, 3, 2);
    assert m.key == d[..32] == d[0..16] + d[16..32];
    assert m.iv == d[32..48];
  }

  // ================================================================= decryption

  /** The decoded bytes open with the 8-byte `Salted__` magic (a shorter buffer never does). */
  predicate HasMagic(data: seq<byte>) {
    |data| >= 8 && data[..8] == SALTED
  }

  /**
   * `decryptOpenSSL(encBase64, password)`: base64-decode, check the magic, take the salt from bytes
   * 8..16 and the cipher input from byte 16 on (`subarray` clamps both to the buffer), derive the
   * key and IV with MD5, decrypt with AES-256-CBC and decode as UTF-8. Every failure is caught and
   * turned into the empty string; it never throws.
   */
  function DecryptOpenSSL(p: Primitives, encBase64: string, password: string): (plain: string)
    ensures !HasMagic(p.base64Decode(encBase64)) ==> plain == ""
  {
    var data := p.base64Decode(encBase64);
    if !HasMagic(data) then ""
    else
      var cut := if |data| < 16 then |data| else 16;
      var m := DeriveKeyIv(p.md5, p.utf8Encode(password), data[8..cut], 32, 16);
      match p.aes256CbcDecrypt(m.key, m.iv, data[cut..])
      case None => ""
      case Some(bytes) => p.utf8Decode(bytes)
  }

  /** A cipher failure (wrong password, bad padding, an envelope cut short after the magic) also yields the empty string. */
  lemma DecryptFailure(p: Primitives, encBase64: string, password: string)
    requires var data := p.base64Decode(encBase64);
      var cut := if |data| < 16 then |data| else 16;
      HasMagic(data) &&
      p.aes256CbcDecrypt(DeriveKeyIv(p.md5, p.utf8Encode(password), data[8..cut], 32, 16).key,
                         DeriveKeyIv(p.md5, p.utf8Encode(password), data[8..cut], 32, 16).iv,
                         data[cut..]).None?
    ensures DecryptOpenSSL(p, encBase64, password) == ""
  {
  }

  /** The envelope an OpenSSL-compatible encryptor writes: magic, 8-byte salt, then the ciphertext. */
  function Envelope(p: Primitives, encrypt: (seq<byte>, seq<byte>, seq<byte>) -> seq<byte>,
                    password: string, salt: seq<byte>, text: string): seq<byte>
  {
    var m := DeriveKeyIv(p.md5, p.utf8Encode(password), salt, 32, 16);
    SALTED + salt + encrypt(m.key, m.iv, p.utf8Encode(text))
  }

  /**
   * Round trip: decrypting what the legacy scheme encrypted gives the text back, provided the
   * cipher, the base64 codec and UTF-8 are each inverse to their encoders. The salt is read back
   * from bytes 8..16 and the ciphertext from byte 16 on.
   */
  lemma DecryptRoundTrip(p: Primitives, encrypt: (seq<byte>, seq<byte>, seq<byte>) -> seq<byte>,
                         encode: seq<byte> -> string, password: string, salt: seq<byte>, text: string)
    requires |salt| == 8
    requires forall b :: p.base64Decode(encode(b)) == b
    requires forall key, iv, plain :: p.aes256CbcDecrypt(key, iv, encrypt(key, iv, plain)) == Some(plain)
    requires p.utf8Decode(p.utf8Encode(text)) == text
    ensures DecryptOpenSSL(p, encode(Envelope(p, encrypt, password, salt, text)), password) == text
  {
    var m := DeriveKeyIv(p.md5, p.utf8Encode(password), salt, 32, 16);
    var c := encrypt(m.key, m.iv, p.utf8Encode(text));
    var data := Envelope(p, encrypt, password, salt, text);
    assert data == SALTED + salt + c;
    assert p.base64Decode(encode(data)) == data;
    assert data[..8] == SALTED;
    assert data[8..16] == salt;
    assert data[16..] == c;
  }

  // ============================================================ query strings

  /** One `key=value` pair of `parseUrlParams`: `split('=')`, the first two parts (`value || ''`), both decoded. */
  function PairEntry(p: Primitives, pair: string): Option<(string, string)> {
    var kv := Split(pair, '=');
    var key := DecodeURIComponent(p, kv[0]);
    var value := DecodeURIComponent(p, if |kv| > 1 then kv[1] else "");
    if key.None? || value.None? then None else Some((key.value, value.value))
  }

  /** The `params` object after the `forEach` has visited `pairs` in order; `None` once a decode has thrown. */
  function ParamsOf(p: Primitives, pairs: seq<string>): Option<map<string, string>> {
    if pairs == [] then Some(map[])
    else
      match ParamsOf(p, pairs[..|pairs| - 1])
      case None => None
      case Some(m) =>
        match PairEntry(p, pairs[|pairs| - 1])
        case None => None
        case Some(kv) => Some(m[kv.0 := kv.1])
  }

  /** The query map of `url`: only the text between the first and the second `?` is read. */
  function UrlParams(p: Primitives, url: string): Option<map<string, string>> {
    var parts := Split(url, '?');
    if |parts| > 1 then ParamsOf(p, Split(parts[1], '&')) else Some(map[])
  }

  /** `parseUrlParams(url)`: fills the map pair by pair; a `URIError` from a decode propagates as `None`. */
  method ParseUrlParams(p: Primitives, url: string) returns (params: Option<map<string, string>>)
    ensures params == UrlParams(p, url)
  {
    var m: map<string, string> := map[];
    var urlParts := Split(url, '?');
    if |urlParts| > 1 {
      var pairs := Split(urlParts[1], '&');
      var i := 0;
      while i < |pairs|
        invariant 0 <= i <= |pairs|
        invariant ParamsOf(p, pairs[..i]) == Some(m)
      {
        ParamsOfStep(p, pairs, i);
        var kv := Split(pairs[i], '=');
        var key := DecodeURIComponent(p, kv[0]);
        if key.None? {
          ParamsFailureSticks(p, pairs, i + 1);
          return None;
        }
        var value := DecodeURIComponent(p, if |kv| > 1 then kv[1] else "");
        if value.None? {
          ParamsFailureSticks(p, pairs, i + 1);
          return None;
        }
        m := m[key.value := value.value];
        i := i + 1;
      }
      assert pairs[..i] == pairs;
    }
    return Some(m);
  }

  /** The fold after pair `i`: the map so far, updated with that pair's entry, or `None`. */
  lemma ParamsOfStep(p: Primitives, pairs: seq<string>, i: nat)
    requires i < |pairs|
    ensures ParamsOf(p, pairs[..i + 1]) ==
      if ParamsOf(p, pairs[..i]).None? || PairEntry(p, pairs[i]).None? then None
      else Some(ParamsOf(p, pairs[..i]).value[PairEntry(p, pairs[i]).value.0 := PairEntry(p, pairs[i]).value.1])
  {
    assert pairs[..i + 1][..i] == pairs[..i];
  }

  /** A URL without `?` has no parameters. */
  lemma NoQuery(p: Primitives, url: string)
    requires '?' !in url
    ensures UrlParams(p, url) == Some(map[])
  {
    SplitNoSep(url, '?');
  }

  /** Only the segment between the first and the second `?` is read; whatever follows is ignored. */
  lemma OnlyFirstQuery(p: Primitives, a: string, q: string, rest: string)
    requires '?' !in a && '?' !in q
    requires rest == [] || rest[0] == '?'
    ensures UrlParams(p, a + "?" + q + rest) == ParamsOf(p, Split(q, '&'))
  {
    if rest == [] {
      assert a + "?" + q + rest == a + ['?'] + q;
      SplitNoSep(q, '?');
      SplitFirst(a, '?', q);
    } else {
      var r := rest[1..];
      assert a + "?" + q + rest == a + ['?'] + (q + ['?'] + r);
      SplitFirst(a, '?', q + ['?'] + r);
      SplitFirst(q, '?', r);
    }
  }

  /** A pair without `=` maps its key to the empty string. */
  lemma PairWithoutValue(p: Primitives, key: string)
    requires '=' !in key && '%' !in key
    ensures PairEntry(p, key) == Some((key, ""))
  {
    SplitNoSep(key, '=');
  }

  /** In `a=b=c` the value is `b`: the text after a second `=` is dropped. */
  lemma PairSecondEquals(p: Primitives, key: string, value: string, rest: string)
    requires '=' !in key && '=' !in value && '%' !in key && '%' !in value
    ensures PairEntry(p, key + "=" + value + "=" + rest) == Some((key, value))
  {
    assert key + "=" + value + "=" + rest == key + ['='] + (value + ['='] + rest);
    SplitFirst(key, '=', value + ['='] + rest);
    SplitFirst(value, '=', rest);
  }

  /** Once a decode has thrown, later pairs cannot bring the map back. */
  lemma {:induction false} ParamsFailureSticks(p: Primitives, pairs: seq<string>, i: nat)
    requires i <= |pairs| && ParamsOf(p, pairs[..i]).None?
    ensures ParamsOf(p, pairs).None?
    decreases |pairs| - i
  {
    if i < |pairs| {
      assert pairs[..i + 1][..i] == pairs[..i];
      ParamsFailureSticks(p, pairs, i + 1);
    } else {
      assert pairs[..i] == pairs;
    }
  }

  /** Pair `j` is the last one whose decoded key is `key`. */
  predicate LastWithKey(p: Primitives, pairs: seq<string>, j: nat, key: string) {
    j < |pairs| && PairEntry(p, pairs[j]).Some? && PairEntry(p, pairs[j]).value.0 == key &&
    forall j' :: j < j' < |pairs| ==> PairEntry(p, pairs[j']).None? || PairEntry(p, pairs[j']).value.0 != key
  }

  /** A map was produced only if every pair decoded, and every decoded key is in it. */
  lemma {:induction false} ParamsKeysPresent(p: Primitives, pairs: seq<string>, m: map<string, string>)
    requires ParamsOf(p, pairs) == Some(m)
    ensures forall j :: 0 <= j < |pairs| ==> PairEntry(p, pairs[j]).Some? && PairEntry(p, pairs[j]).value.0 in m
  {
    if pairs != [] {
      var init := pairs[..|pairs| - 1];
      var m0 := ParamsOf(p, init).value;
      ParamsKeysPresent(p, init, m0);
      forall j | 0 <= j < |pairs|
        ensures PairEntry(p, pairs[j]).Some? && PairEntry(p, pairs[j]).value.0 in m
      {
        if j < |init| {
          assert pairs[j] == init[j];
        }
      }
    }
  }

  /** Every key in the map is the decoded key of some pair. */
  lemma {:induction false} ParamsKeysFromPairs(p: Primitives, pairs: seq<string>, m: map<string, string>, key: string)
    requires ParamsOf(p, pairs) == Some(m) && key in m
    ensures exists j :: 0 <= j < |pairs| && PairEntry(p, pairs[j]).Some? && PairEntry(p, pairs[j]).value.0 == key
  {
    var init := pairs[..|pairs| - 1];
    var m0 := ParamsOf(p, init).value;
    var kv := PairEntry(p, pairs[|pairs| - 1]).value;
    if kv.0 == key {
      assert PairEntry(p, pairs[|pairs| - 1]).value.0 == key;
    } else {
      ParamsKeysFromPairs(p, init, m0, key);
      var j :| 0 <= j < |init| && PairEntry(p, init[j]).Some? && PairEntry(p, init[j]).value.0 == key;
      assert pairs[j] == init[j];
    }
  }

  /** Last writer wins: a key holds the value of the last pair that names it. */
  lemma {:induction false} ParamsLastWins(p: Primitives, pairs: seq<string>, m: map<string, string>, j: nat, key: string)
    requires ParamsOf(p, pairs) == Some(m)
    requires LastWithKey(p, pairs, j, key)
    ensures key in m && m[key] == PairEntry(p, pairs[j]).value.1
  {
    var init := pairs[..|pairs| - 1];
    var m0 := ParamsOf(p, init).value;
    var kv := PairEntry(p, pairs[|pairs| - 1]).value;
    if j < |pairs| - 1 {
      assert kv.0 != key;
      forall j' | j < j' < |init|
        ensures PairEntry(p, init[j']).None? || PairEntry(p, init[j']).value.0 != key
      {
        assert init[j'] == pairs[j'];
      }
      assert init[j] == pairs[j];
      ParamsLastWins(p, init, m0, j, key);
    }
  }

  // ============================================================== listing cards

  /** A catalog entry built from one listing card. */
  datatype MetaPreview = MetaPreview(id: string, contentType: string, name: string, poster: string, description: string)

  /** lib/utils.js reads the poster from `data-src`, falling back to `src`; addon.js reads `data-src` only. */
  datatype PosterRule = DataSrcThenSrc | DataSrcOnly

  /** `attr('data-src') || attr('src')`, or just `attr('data-src')`. */
  function Poster(card: Card, rule: PosterRule): Option<string> {
    if rule == DataSrcOnly || Truthy(card.dataSrc) then card.dataSrc else card.src
  }

  /** The per-card rule of `parseSearchResults`. */
  function CardPreview(card: Card, rule: PosterRule): (r: Option<MetaPreview>)
    ensures r.Some? <==> Truthy(card.title) && Truthy(card.link) && Truthy(Poster(card, rule))
    ensures r.Some? ==> r.value.name == card.title.value && r.value.description == card.title.value
    ensures r.Some? ==> Some(r.value.poster) == Poster(card, rule)
    ensures r.Some? ==> r.value.contentType in {"movie", "series"}
    ensures r.Some? ==> (r.value.contentType == "movie" <==> Contains(card.link.value, "/movie/"))
    ensures r.Some? ==> r.value.id == "myflixer:" + r.value.contentType + ":" + LastSegment(card.link.value)
  {
    var poster := Poster(card, rule);
    if Truthy(card.title) && Truthy(card.link) && Truthy(poster) then
      var link := card.link.value;
      var contentType := if Contains(link, "/movie/") then "movie" else "series";
      Some(MetaPreview("myflixer:" + contentType + ":" + LastSegment(link), contentType, card.title.value, poster.value, card.title.value))
    else None
  }

  /** The results after the `.each` has visited `cards`: the kept cards' entries, in card order. */
  function Previews(cards: seq<Card>, rule: PosterRule): (r: seq<MetaPreview>)
    ensures |r| <= |cards|
  {
    if cards == [] then []
    else
      Previews(cards[..|cards| - 1], rule)
        + match CardPreview(cards[|cards| - 1], rule) case Some(m) => [m] case None => []
  }

  /** `parseSearchResults(html)` over the extracted cards. */
  method ParseSearchResults(cards: seq<Card>, rule: PosterRule) returns (results: seq<MetaPreview>)
    ensures results == Previews(cards, rule)
  {
    results := [];
    for i := 0 to |cards|
      invariant results == Previews(cards[..i], rule)
    {
      assert cards[..i + 1][..i] == cards[..i];
      var preview := CardPreview(cards[i], rule);
      if preview.Some? {
        results := results + [preview.value];
      }
    }
    assert cards[..|cards|] == cards;
  }

  /** Order is preserved: the entries of a concatenation are the entries of each part, in turn. */
  lemma {:induction false} PreviewsConcat(a: seq<Card>, b: seq<Card>, rule: PosterRule)
    ensures Previews(a + b, rule) == Previews(a, rule) + Previews(b, rule)
  {
    if b != [] {
      var b0 := b[..|b| - 1];
      assert (a + b)[..|a + b| - 1] == a + b0;
      assert (a + b)[|a + b| - 1] == b[|b| - 1];
      PreviewsConcat(a, b0, rule);
    } else {
      assert a + b == a;
    }
  }

  /** A card gives one entry when it is kept and none otherwise. */
  lemma PreviewsSingle(card: Card, rule: PosterRule)
    ensures Previews([card], rule) == match CardPreview(card, rule) case Some(m) => [m] case None => []
  {
    assert [card][..0] == [];
  }

  /** The addon's stricter rule keeps fewer cards, and the ones it keeps get the same entry. */
  lemma PosterRulesAgree(card: Card)
    ensures CardPreview(card, DataSrcOnly).Some? ==> CardPreview(card, DataSrcThenSrc) == CardPreview(card, DataSrcOnly)
    ensures CardPreview(card, DataSrcOnly).Some? <==> CardPreview(card, DataSrcThenSrc).Some? && Truthy(card.dataSrc)
  {
  }
}
