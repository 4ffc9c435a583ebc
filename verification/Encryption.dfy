/**
 Tokens: an item becomes JSON, is padded, encrypted in CBC mode (section 6.2 of NIST SP 800-38A) under a
 key that is also the initial vector, written in base64, scrambled a little and wrapped. The block cipher,
 JSON and base64 are any functions that can be undone.
 */
module Encryption {
  import opened Text

  type Bytes = seq<bv8>

  const BLOCK: nat := 16

  datatype Item = Item(id: string, expire: nat)

  /** The parts that are not this repository's: a block permutation, JSON and base64. */
  datatype Primitives = Primitives(
    encryptBlock: Bytes -> Bytes,
    decryptBlock: Bytes -> Bytes,
    toJson: Item -> Bytes,
    fromJson: Bytes -> Option<Item>,
    toBase64: Bytes -> string,
    fromBase64: string -> Option<Bytes>)

  ghost predicate Invertible(p: Primitives)
  {
    && (forall b: Bytes :: |b| == BLOCK ==> |p.encryptBlock(b)| == BLOCK && |p.decryptBlock(b)| == BLOCK)
    && (forall b: Bytes :: |b| == BLOCK ==> p.decryptBlock(p.encryptBlock(b)) == b)
    && (forall i: Item :: p.toJson(i) != [] && p.fromJson(p.toJson(i)) == Some(i))
    && (forall b: Bytes :: b != [] ==> p.toBase64(b) != [] && p.fromBase64(p.toBase64(b)) == Some(b))
  }

  // ---------------------------------------------------------------- padding

  function PadNumber(n: nat): (k: nat)
    ensures 1 <= k <= BLOCK && (n + k) % BLOCK == 0
  {
    BLOCK - n % BLOCK
  }

  /** The padding of section 6.3 of RFC 5652. */
  function Padding(src: Bytes): (r: Bytes)
    ensures |r| % BLOCK == 0 && |src| < |r| <= |src| + BLOCK
  {
    var k := PadNumber(|src|);
    src + seq(k, _ => k as bv8)
  }

  function UnPadding(src: Bytes): Bytes
  {
    if src == [] then src
    else
      var n1 := |src| - src[|src| - 1] as int;
      if n1 > |src| || n1 <= 0 then src else src[..n1]
  }

  /** Padding comes off again unless there was nothing to pad: then a block of padding is left. */
  lemma PaddingComesOff(src: Bytes)
    ensures UnPadding(Padding(src)) == src <==> src != []
    ensures src == [] ==> |UnPadding(Padding(src))| == BLOCK
  {
    var k := PadNumber(|src|);
    var r := Padding(src);
    assert r[|r| - 1] == k as bv8;
    assert r[|r| - 1] as int == k;
    assert src != [] ==> r[..|src|] == src;
  }

  /** What is added: at least one byte and at most a block, each of them the number of the bytes added. */
  lemma PaddedExactly(src: Bytes)
    ensures
      var r := Padding(src);
      var k := |r| - |src|;
      && 1 <= k <= 16 && |r| % 16 == 0 && r[..|src|] == src && forall i :: |src| <= i < |r| ==> r[i] == k as bv8
  {
    var k := PadNumber(|src|);
    assert Padding(src) == src + seq(k, _ => k as bv8);
  }

  // ---------------------------------------------------------------- CBC

  function Xor(a: Bytes, b: Bytes): (r: Bytes)
    requires |a| == |b|
    ensures |r| == |a| && forall i :: 0 <= i < |a| ==> r[i] == a[i] ^ b[i]
  {
    seq(|a|, i requires 0 <= i < |a| => a[i] ^ b[i])
  }

  lemma XorTwice(a: Bytes, b: Bytes)
    requires |a| == |b|
    ensures Xor(Xor(a, b), b) == a
  {
    forall i | 0 <= i < |a| ensures Xor(Xor(a, b), b)[i] == a[i] {
      assert (a[i] ^ b[i]) ^ b[i] == a[i];
    }
  }

  ghost predicate Blocks(f: Bytes -> Bytes) { forall b: Bytes :: |b| == BLOCK ==> |f(b)| == BLOCK }

  function CbcEncrypt(f: Bytes -> Bytes, iv: Bytes, src: Bytes): (r: Bytes)
    requires Blocks(f) && |iv| == BLOCK && |src| % BLOCK == 0
    ensures |r| == |src|
    decreases |src|
  {
    if src == [] then []
    else
      var c := f(Xor(src[..BLOCK], iv));
      c + CbcEncrypt(f, c, src[BLOCK..])
  }

  function CbcDecrypt(g: Bytes -> Bytes, iv: Bytes, src: Bytes): (r: Bytes)
    requires Blocks(g) && |iv| == BLOCK && |src| % BLOCK == 0
    ensures |r| == |src|
    decreases |src|
  {
    if src == [] then []
    else Xor(g(src[..BLOCK]), iv) + CbcDecrypt(g, src[..BLOCK], src[BLOCK..])
  }

  lemma EncryptStep(f: Bytes -> Bytes, iv: Bytes, a: Bytes, rest: Bytes)
    requires Blocks(f) && |iv| == BLOCK == |a| && |rest| % BLOCK == 0
    ensures |a + rest| % BLOCK == 0
    ensures var c := f(Xor(a, iv)); |c| == BLOCK && CbcEncrypt(f, iv, a + rest) == c + CbcEncrypt(f, c, rest)
  {
    assert (a + rest)[..BLOCK] == a && (a + rest)[BLOCK..] == rest;
  }

  lemma DecryptStep(g: Bytes -> Bytes, iv: Bytes, a: Bytes, rest: Bytes)
    requires Blocks(g) && |iv| == BLOCK == |a| && |rest| % BLOCK == 0
    ensures |a + rest| % BLOCK == 0 && |g(a)| == BLOCK
    ensures CbcDecrypt(g, iv, a + rest) == Xor(g(a), iv) + CbcDecrypt(g, a, rest)
  {
    assert (a + rest)[..BLOCK] == a && (a + rest)[BLOCK..] == rest;
  }

  lemma {:induction false} CbcInverse(f: Bytes -> Bytes, g: Bytes -> Bytes, iv: Bytes, src: Bytes)
    requires Blocks(f) && Blocks(g) && |iv| == BLOCK && |src| % BLOCK == 0
    requires forall b: Bytes :: |b| == BLOCK ==> g(f(b)) == b
    ensures CbcDecrypt(g, iv, CbcEncrypt(f, iv, src)) == src
    decreases |src|
  {
    hide CbcEncrypt, CbcDecrypt, Xor;
    if src == [] {
      EncryptNothing(f, iv);
      DecryptNothing(g, iv);
    } else {
      FirstBlock(src);
      var a, rest := src[..BLOCK], src[BLOCK..];
      var c := f(Xor(a, iv));
      EncryptStep(f, iv, a, rest);
      DecryptStep(g, iv, c, CbcEncrypt(f, c, rest));
      CbcInverse(f, g, c, rest);
      XorTwice(a, iv);
    }
  }

  /** Block k of a text of blocks. */
  function BlockAt(s: Bytes, k: nat): Bytes
    requires 16 * k + 16 <= |s|
  {
    s[16 * k..16 * k + 16]
  }

  /** Each block is encrypted after an exclusive or with the block of cipher text before it, the first with the initial vector. */
  lemma {:induction false} CbcChains(f: Bytes -> Bytes, iv: Bytes, src: Bytes, k: nat)
    requires Blocks(f) && |iv| == BLOCK && |src| % BLOCK == 0 && 16 * k + 16 <= |src|
    ensures
      var r := CbcEncrypt(f, iv, src);
      BlockAt(r, k) == f(Xor(BlockAt(src, k), if k == 0 then iv else BlockAt(r, k - 1)))
    decreases k
  {
    FirstBlock(src);
    var a, rest := src[..BLOCK], src[BLOCK..];
    EncryptStep(f, iv, a, rest);
    var c := f(Xor(a, iv));
    var r, tail := CbcEncrypt(f, iv, src), CbcEncrypt(f, c, rest);
    hide CbcEncrypt, Xor;
    assert BlockAt(r, 0) == c && BlockAt(src, 0) == a;
    if k > 0 {
      CbcChains(f, c, rest, k - 1);
      assert BlockAt(r, k) == BlockAt(tail, k - 1) && BlockAt(src, k) == BlockAt(rest, k - 1);
      assert k > 1 ==> BlockAt(r, k - 1) == BlockAt(tail, k - 2);
    }
  }

  lemma FirstBlock(src: Bytes)
    requires src != [] && |src| % BLOCK == 0
    ensures |src| >= BLOCK && src == src[..BLOCK] + src[BLOCK..] && |src[BLOCK..]| % BLOCK == 0
  {
  }

  /** Encrypts a buffer in place, first block first. */
  method EncryptBlocks(p: Primitives, iv: Bytes, buf: array<bv8>)
    requires Blocks(p.encryptBlock) && |iv| == BLOCK && buf.Length % BLOCK == 0
    modifies buf
    ensures buf[..] == CbcEncrypt(p.encryptBlock, iv, old(buf[..]))
  {
    hide CbcEncrypt, Xor;
    var at, last := 0, iv;
    ghost var src := buf[..];
    assert src[0..] == src && buf[..0] == [];
    while at < buf.Length
      invariant 0 <= at <= buf.Length && at % BLOCK == 0 && |last| == BLOCK
      invariant buf[at..] == src[at..]
      invariant buf[..at] + CbcEncrypt(p.encryptBlock, last, src[at..]) == CbcEncrypt(p.encryptBlock, iv, src)
    {
      var plain := buf[at..at + BLOCK];
      ghost var done, rest := buf[..at], src[at + BLOCK..];
      Take(buf[..], src, at);
      EncryptStep(p.encryptBlock, last, plain, rest);
      var c := p.encryptBlock(Xor(plain, last));
      Reassociate(done, c, CbcEncrypt(p.encryptBlock, c, rest));
      Store(buf, at, c);
      assert buf[..at + BLOCK] == done + c && buf[at + BLOCK..] == rest;
      at, last := at + BLOCK, c;
    }
    EncryptNothing(p.encryptBlock, last);
    assert buf[..at] == buf[..] && src[at..] == [] && buf[..] + [] == buf[..];
  }

  lemma EncryptNothing(f: Bytes -> Bytes, iv: Bytes)
    requires Blocks(f) && |iv| == BLOCK
    ensures CbcEncrypt(f, iv, []) == []
  {
  }

  lemma DecryptNothing(g: Bytes -> Bytes, iv: Bytes)
    requires Blocks(g) && |iv| == BLOCK
    ensures CbcDecrypt(g, iv, []) == []
  {
  }

  lemma Take(now: Bytes, src: Bytes, at: nat)
    requires at < |now| == |src| && |src| % BLOCK == 0 && at % BLOCK == 0 && now[at..] == src[at..]
    ensures at + BLOCK <= |src| && src[at..] == now[at..at + BLOCK] + src[at + BLOCK..]
  {
    assert now[at..at + BLOCK] == now[at..][..BLOCK] == src[at..][..BLOCK];
  }

  lemma Reassociate(a: Bytes, b: Bytes, c: Bytes)
    ensures a + (b + c) == (a + b) + c
  {
  }

  /** Decrypts a buffer in place, first block first, keeping each block until the next is done. */
  method DecryptBlocks(p: Primitives, iv: Bytes, buf: array<bv8>)
    requires Blocks(p.decryptBlock) && |iv| == BLOCK && buf.Length % BLOCK == 0
    modifies buf
    ensures buf[..] == CbcDecrypt(p.decryptBlock, iv, old(buf[..]))
  {
    hide CbcDecrypt, Xor;
    var at, last := 0, iv;
    ghost var src := buf[..];
    assert src[0..] == src && buf[..0] == [];
    while at < buf.Length
      invariant 0 <= at <= buf.Length && at % BLOCK == 0 && |last| == BLOCK
      invariant buf[at..] == src[at..]
      invariant buf[..at] + CbcDecrypt(p.decryptBlock, last, src[at..]) == CbcDecrypt(p.decryptBlock, iv, src)
    {
      var c := buf[at..at + BLOCK];
      ghost var done, rest := buf[..at], src[at + BLOCK..];
      Take(buf[..], src, at);
      DecryptStep(p.decryptBlock, last, c, rest);
      var plain := Xor(p.decryptBlock(c), last);
      Reassociate(done, plain, CbcDecrypt(p.decryptBlock, c, rest));
      Store(buf, at, plain);
      assert buf[..at + BLOCK] == done + plain && buf[at + BLOCK..] == rest;
      at, last := at + BLOCK, c;
    }
    DecryptNothing(p.decryptBlock, last);
    assert buf[..at] == buf[..] && src[at..] == [] && buf[..] + [] == buf[..];
  }

  method Store(buf: array<bv8>, at: nat, block: Bytes)
    requires at + |block| <= buf.Length
    modifies buf
    ensures buf[..] == old(buf[..at]) + block + old(buf[at + |block|..])
  {
    for i := 0 to |block|
      invariant buf[..at] == old(buf[..at]) && buf[at..at + i] == block[..i] && buf[at + i..] == old(buf[at + i..])
    {
      buf[at + i] := block[i];
    }
    assert buf[..] == buf[..at] + buf[at..at + |block|] + buf[at + |block|..];
  }

  method ToBuffer(src: Bytes) returns (buf: array<bv8>)
    ensures fresh(buf) && buf[..] == src
  {
    buf := new bv8[|src|](i requires 0 <= i < |src| => src[i]);
  }

  /** The buffer is padded and then encrypted where it is. */
  method Encrypt(p: Primitives, key: Bytes, plain: Bytes) returns (cipher: Bytes)
    requires Invertible(p) && |key| == BLOCK
    ensures cipher == CbcEncrypt(p.encryptBlock, key, Padding(plain))
  {
    var buf := ToBuffer(Padding(plain));
    EncryptBlocks(p, key, buf);
    return buf[..];
  }

  method Decrypt(p: Primitives, key: Bytes, cipher: Bytes) returns (plain: Option<Bytes>)
    requires Invertible(p) && |key| == BLOCK
    ensures plain == if |cipher| % BLOCK != 0 then None else Some(UnPadding(CbcDecrypt(p.decryptBlock, key, cipher)))
  {
    if |cipher| % BLOCK != 0 {
      return None;
    }
    var buf := ToBuffer(cipher);
    DecryptBlocks(p, key, buf);
    return Some(UnPadding(buf[..]));
  }

  // ---------------------------------------------------------------- tokens

  const PREFIX := "=GB=l/yb=Gy/b"
  const SUFFIX := "=/b/===/=b"

  /** The first three and the last three characters change places. */
  function Swap(s: string): (r: string)
    ensures |r| == |s|
  {
    var n := |s|;
    if n < 10 then s else s[n - 3..] + s[3..n - 3] + s[..3]
  }

  lemma SwapTwice(s: string)
    ensures Swap(Swap(s)) == s
  {
    var n := |s|;
    if n >= 10 {
      var r := Swap(s);
      assert r[n - 3..] == s[..3] && r[3..n - 3] == s[3..n - 3] && r[..3] == s[n - 3..];
    }
  }

  /** Three characters, at least four more, and three last ones: the ends change places. A shorter text stays. */
  lemma SwapParts(head: string, middle: string, tail: string, short: string)
    requires |head| == |tail| == 3 && |middle| >= 4 && |short| < 10
    ensures Swap(head + middle + tail) == tail + middle + head && Swap(short) == short
  {
    var s := head + middle + tail;
    assert s[|s| - 3..] == tail && s[3..|s| - 3] == middle && s[..3] == head;
  }

  datatype Failure = EmptyToken | BadFormat | BadBase64 | BadLength | BadJson | MissingId

  datatype Opened = Opened(item: Item) | Failed(why: Failure)

  /** White space of the Unicode standard. */
  predicate IsSpace(c: char)
  {
    var n := c as int;
    || 9 <= n <= 13 || n == 0x20 || n == 0x85 || n == 0xA0 || n == 0x1680 || 0x2000 <= n <= 0x200A
    || n == 0x2028 || n == 0x2029 || n == 0x202F || n == 0x205F || n == 0x3000
  }

  function TrimSpace(s: string): (r: string)
    ensures |r| <= |s|
  {
    if s == "" then s
    else if IsSpace(s[0]) then TrimSpace(s[1..])
    else if IsSpace(s[|s| - 1]) then TrimSpace(s[..|s| - 1])
    else s
  }

  function TrimPrefix(s: string, prefix: string): string { if prefix <= s then s[|prefix|..] else s }

  predicate HasSuffix(s: string, suffix: string) { |suffix| <= |s| && s[|s| - |suffix|..] == suffix }

  function TrimSuffix(s: string, suffix: string): string { if HasSuffix(s, suffix) then s[..|s| - |suffix|] else s }

  /** The key is also the initial vector, so it has the length of a block. */
  function Seal(p: Primitives, key: Bytes, item: Item): string
    requires Invertible(p) && |key| == BLOCK
  {
    PREFIX + Swap(p.toBase64(CbcEncrypt(p.encryptBlock, key, Padding(p.toJson(item))))) + SUFFIX
  }

  function Open(p: Primitives, key: Bytes, token: string): Opened
    requires Invertible(p) && |key| == BLOCK
  {
    if token == "" then Failed(EmptyToken)
    else
      var text := TrimSuffix(TrimPrefix(TrimSpace(token), PREFIX), SUFFIX);
      if text == "" then Failed(BadFormat)
      else
        match p.fromBase64(Swap(text))
        case None => Failed(BadBase64)
        case Some(cipher) =>
          if |cipher| % BLOCK != 0 then Failed(BadLength)
          else
            match p.fromJson(UnPadding(CbcDecrypt(p.decryptBlock, key, cipher)))
            case None => Failed(BadJson)
            case Some(item) => if item.id == "" then Failed(MissingId) else Opened(item)
  }

  method SealToken(p: Primitives, key: Bytes, item: Item) returns (token: string)
    requires Invertible(p) && |key| == BLOCK
    ensures token == Seal(p, key, item)
  {
    var cipher := Encrypt(p, key, p.toJson(item));
    return PREFIX + Swap(p.toBase64(cipher)) + SUFFIX;
  }

  method OpenToken(p: Primitives, key: Bytes, token: string) returns (r: Opened)
    requires Invertible(p) && |key| == BLOCK
    ensures r == Open(p, key, token)
  {
    if token == "" {
      return Failed(EmptyToken);
    }
    var text := TrimSuffix(TrimPrefix(TrimSpace(token), PREFIX), SUFFIX);
    if text == "" {
      return Failed(BadFormat);
    }
    var cipher := p.fromBase64(Swap(text));
    if cipher.None? {
      return Failed(BadBase64);
    }
    var plain := Decrypt(p, key, cipher.value);
    if plain.None? {
      return Failed(BadLength);
    }
    var item := p.fromJson(plain.value);
    if item.None? {
      return Failed(BadJson);
    }
    return if item.value.id == "" then Failed(MissingId) else Opened(item.value);
  }

  lemma Unwrap(text: string)
    ensures var token := PREFIX + text + SUFFIX;
            token != "" && TrimSuffix(TrimPrefix(TrimSpace(token), PREFIX), SUFFIX) == text
  {
    var token := PREFIX + text + SUFFIX;
    assert token[0] == '=' && token[|token| - 1] == 'b';
    assert TrimSpace(token) == token;
    var rest := token[|PREFIX|..];
    assert rest == text + SUFFIX;
    assert rest[|rest| - |SUFFIX|..] == SUFFIX;
  }

  /** A token opens to the item it was made of, whenever that has an id; without an id it does not open. */
  lemma OpenSeal(p: Primitives, key: Bytes, item: Item)
    requires Invertible(p) && |key| == BLOCK
    ensures Open(p, key, Seal(p, key, item)) == if item.id == "" then Failed(MissingId) else Opened(item)
  {
    hide Padding, UnPadding, CbcEncrypt, CbcDecrypt, TrimSpace, TrimPrefix, TrimSuffix, Swap;
    var json := p.toJson(item);
    var cipher := CbcEncrypt(p.encryptBlock, key, Padding(json));
    var text := Swap(p.toBase64(cipher));
    Unwrap(text);
    SwapTwice(p.toBase64(cipher));
    CbcInverse(p.encryptBlock, p.decryptBlock, key, Padding(json));
    PaddingComesOff(json);
    assert cipher != [] && |cipher| % BLOCK == 0;
  }

  // ---------------------------------------------------------------- what opens and what does not

  predicate White(s: string)
  {
    forall i :: 0 <= i < |s| ==>
                  s[i] as int in {0x09, 0x0A, 0x0B, 0x0C, 0x0D, 0x20, 0x85, 0xA0, 0x1680, 0x2000, 0x2001, 0x2002, 0x2003, 0x2004, 0x2005, 0x2006,
                                  0x2007, 0x2008, 0x2009, 0x200A, 0x2028, 0x2029, 0x202F, 0x205F, 0x3000}
  }

  lemma WhiteIsSpace(c: char)
    ensures IsSpace(c) <==> White([c])
  {
    assert [c][0] == c;
  }

  lemma {:induction false} TrimsAround(a: string, text: string, b: string)
    requires White(a) && White(b) && (text == "" || (!White([text[0]]) && !White([text[|text| - 1]])))
    ensures TrimSpace(a + text + b) == text
    decreases |a| + |b|
  {
    var s := a + text + b;
    if a != "" {
      WhiteIsSpace(a[0]);
      assert s[1..] == a[1..] + text + b;
      TrimsAround(a[1..], text, b);
    } else if text != "" {
      WhiteIsSpace(text[0]);
      if b != "" {
        WhiteIsSpace(b[|b| - 1]);
        assert s[..|s| - 1] == a + text + b[..|b| - 1];
        TrimsAround(a, text, b[..|b| - 1]);
      } else {
        WhiteIsSpace(text[|text| - 1]);
        assert s == text;
      }
    } else if b != "" {
      WhiteIsSpace(b[0]);
      assert s == b && b[1..] == "" + "" + b[1..];
      TrimsAround("", "", b[1..]);
    }
  }

  /** White space around a token makes no difference. */
  lemma OpenTrimmed(p: Primitives, key: Bytes, a: string, text: string, b: string)
    requires Invertible(p) && |key| == BLOCK && White(a) && White(b)
    ensures Open(p, key, a + (PREFIX + text + SUFFIX) + b) == Open(p, key, PREFIX + text + SUFFIX)
  {
    var token := PREFIX + text + SUFFIX;
    WrappedTrims(a, text, b);
    assert White("");
    hide White, TrimSpace, Open;
    WrappedTrims("", text, "");
    assert "" + token + "" == token;
    OpenOfTrim(p, key, a + token + b, token);
  }

  lemma WrappedTrims(a: string, text: string, b: string)
    requires White(a) && White(b)
    ensures var token := PREFIX + text + SUFFIX; token != "" && TrimSpace(a + token + b) == token
  {
    var token := PREFIX + text + SUFFIX;
    assert token[0] == '=' && token[|token| - 1] == 'b';
    WhiteIsSpace(token[0]);
    WhiteIsSpace(token[|token| - 1]);
    hide White;
    TrimsAround(a, token, b);
  }

  lemma OpenOfTrim(p: Primitives, key: Bytes, x: string, y: string)
    requires Invertible(p) && |key| == BLOCK && x != "" && y != "" && TrimSpace(x) == TrimSpace(y)
    ensures Open(p, key, x) == Open(p, key, y)
  {
    hide TrimSpace, TrimPrefix, TrimSuffix, Swap, UnPadding, CbcDecrypt;
  }

  /** Why a token does not open: nothing in it, no base64, no whole blocks, no JSON, or no id. */
  lemma RefusedBecause(p: Primitives, key: Bytes, text: string)
    requires Invertible(p) && |key| == BLOCK
    ensures Open(p, key, "") == Failed(EmptyToken) && Open(p, key, PREFIX) == Open(p, key, PREFIX + SUFFIX) == Failed(BadFormat)
    ensures
      text != "" ==>
        var r, data := Open(p, key, PREFIX + text + SUFFIX), p.fromBase64(Swap(text));
        && (r == Failed(BadBase64) <==> data.None?)
        && (r == Failed(BadLength) <==> data.Some? && |data.value| % 16 != 0)
        && (data.Some? && |data.value| % 16 == 0 ==>
              var item := p.fromJson(UnPadding(CbcDecrypt(p.decryptBlock, key, data.value)));
              && (r == Failed(BadJson) <==> item.None?)
              && (r == Failed(MissingId) <==> item.Some? && item.value.id == "")
              && (r.Opened? <==> item.Some? && item.value.id != "")
              && (r.Opened? ==> r.item == item.value))
  {
    hide Swap, UnPadding, CbcDecrypt;
    Unwrap(text);
    Unwrap("");
    assert PREFIX + "" + SUFFIX == PREFIX + SUFFIX;
    BarePrefix();
    hide TrimSpace, TrimPrefix, TrimSuffix;
  }

  lemma BarePrefix()
    ensures TrimSuffix(TrimPrefix(TrimSpace(PREFIX), PREFIX), SUFFIX) == ""
  {
    assert TrimSpace(PREFIX) == PREFIX;
  }

  /** Different items have different tokens. */
  lemma SealInjective(p: Primitives, key: Bytes, a: Item, b: Item)
    requires Invertible(p) && |key| == BLOCK && a.id != "" && Seal(p, key, a) == Seal(p, key, b)
    ensures a == b
  {
    OpenSeal(p, key, a);
    OpenSeal(p, key, b);
  }
}
