/** Clipping of captured output to a budget of bytes, never inside a character.

    Bytes follow section 3 of RFC 3629. */
module OutputCollector {
  import opened Collections

  /** Code points; surrogates can occur in a text but cannot be encoded. */
  type Text = seq<nat>

  type Bytes = seq<nat>

  predicate Scalar(c: nat) {
    c < 0xD800 || 0xE000 <= c <= 0x10FFFF
  }

  predicate Encodable(t: Text) {
    forall i :: 0 <= i < |t| ==> Scalar(t[i])
  }

  function Encode(c: nat): Bytes {
    if c < 0x80 then [c]
    else if c < 0x800 then [0xC0 + c / 64, 0x80 + c % 64]
    else if c < 0x10000 then [0xE0 + c / 4096, 0x80 + c / 64 % 64, 0x80 + c % 64]
    else [0xF0 + c / 262144, 0x80 + c / 4096 % 64, 0x80 + c / 64 % 64, 0x80 + c % 64]
  }

  function EncodeAll(t: Text): Bytes {
    if t == [] then [] else Encode(t[0]) + EncodeAll(t[1..])
  }

  // ------------------------------------------------------------- decoding

  /** Length of a sequence by its first byte; zero if no sequence starts with it. */
  function Lead(x: nat): nat {
    if x < 0x80 then 1
    else if 0xC2 <= x <= 0xDF then 2
    else if 0xE0 <= x <= 0xEF then 3
    else if 0xF0 <= x <= 0xF4 then 4
    else 0
  }

  predicate Tail(x: nat) {
    0x80 <= x <= 0xBF
  }

  /** The second byte excludes overlong forms, surrogates and what lies beyond the last code point. */
  predicate SecondOk(x: nat, y: nat) {
    if x == 0xE0 then 0xA0 <= y <= 0xBF
    else if x == 0xED then 0x80 <= y <= 0x9F
    else if x == 0xF0 then 0x90 <= y <= 0xBF
    else if x == 0xF4 then 0x80 <= y <= 0x8F
    else Tail(y)
  }

  /** How many bytes at the front belong to a sequence that is well formed so far. */
  function Matched(b: Bytes): (n: nat)
    requires b != [] && Lead(b[0]) > 0
    ensures 1 <= n <= |b| && n <= Lead(b[0])
  {
    var n := Lead(b[0]);
    if n == 1 || |b| < 2 || !SecondOk(b[0], b[1]) then 1
    else if n == 2 || |b| < 3 || !Tail(b[2]) then 2
    else if n == 3 || |b| < 4 || !Tail(b[3]) then 3
    else 4
  }

  function Value(b: Bytes): nat
    requires b != [] && Lead(b[0]) > 0 && Matched(b) == Lead(b[0])
  {
    match Lead(b[0])
    case 1 => b[0]
    case 2 => (b[0] - 0xC0) * 64 + (b[1] - 0x80)
    case 3 => (b[0] - 0xE0) * 4096 + (b[1] - 0x80) * 64 + (b[2] - 0x80)
    case _ => (b[0] - 0xF0) * 262144 + (b[1] - 0x80) * 4096 + (b[2] - 0x80) * 64 + (b[3] - 0x80)
  }

  /** Decoding that ignores what is not well formed. */
  function Decode(b: Bytes): Text
    decreases |b|
  {
    if b == [] then []
    else if Lead(b[0]) == 0 then Decode(b[1..])
    else if Matched(b) == Lead(b[0]) then [Value(b)] + Decode(b[Matched(b)..])
    else Decode(b[Matched(b)..])
  }

  /** The encoding of a character is one well-formed sequence, and decoding gives the character back. */
  lemma EncodedIsMatched(c: nat, rest: Bytes)
    requires Scalar(c)
    ensures var b := Encode(c) + rest;
            Lead(b[0]) == |Encode(c)| && Matched(b) == |Encode(c)| && Value(b) == c
  {
    var b := Encode(c) + rest;
    assert forall i :: 0 <= i < |Encode(c)| ==> b[i] == Encode(c)[i];
    if c < 0x80 {
    } else if c < 0x800 {
      assert b[1] == 0x80 + c % 64;
    } else if c < 0x10000 {
      assert b[1] == 0x80 + c / 64 % 64 && b[2] == 0x80 + c % 64;
      assert c / 4096 == c / 64 / 64;
    } else {
      assert b[1] == 0x80 + c / 4096 % 64 && b[2] == 0x80 + c / 64 % 64 && b[3] == 0x80 + c % 64;
      assert c / 4096 == c / 64 / 64 && c / 262144 == c / 4096 / 64;
    }
  }

  lemma DecodeEncoded(c: nat, rest: Bytes)
    requires Scalar(c)
    ensures Decode(Encode(c) + rest) == [c] + Decode(rest)
  {
    EncodedIsMatched(c, rest);
    assert (Encode(c) + rest)[|Encode(c)|..] == rest;
  }

  /** Decoding undoes encoding. */
  lemma {:induction false} RoundTrip(t: Text)
    requires Encodable(t)
    ensures Decode(EncodeAll(t)) == t
  {
    if t != [] {
      DecodeEncoded(t[0], EncodeAll(t[1..]));
      RoundTrip(t[1..]);
    }
  }

  lemma TwoBytes(x: nat, y: nat)
    requires 0xC2 <= x <= 0xDF && Tail(y)
    ensures var c := (x - 0xC0) * 64 + (y - 0x80); 0x80 <= c < 0x800 && Encode(c) == [x, y]
  {
  }

  lemma ThreeBytes(x: nat, y: nat, z: nat)
    requires 0xE0 <= x <= 0xEF && SecondOk(x, y) && Tail(z)
    ensures var c := (x - 0xE0) * 4096 + (y - 0x80) * 64 + (z - 0x80);
            0x800 <= c < 0x10000 && Scalar(c) && Encode(c) == [x, y, z]
  {
    var h := (x - 0xE0) * 64 + (y - 0x80);
    var c := h * 64 + (z - 0x80);
    assert c / 64 == h && c % 64 == z - 0x80 && h / 64 == x - 0xE0 && h % 64 == y - 0x80;
    assert c / 4096 == h / 64;
  }

  lemma FourBytes(x: nat, y: nat, z: nat, u: nat)
    requires 0xF0 <= x <= 0xF4 && SecondOk(x, y) && Tail(z) && Tail(u)
    ensures var c := (x - 0xF0) * 262144 + (y - 0x80) * 4096 + (z - 0x80) * 64 + (u - 0x80);
            0x10000 <= c <= 0x10FFFF && Encode(c) == [x, y, z, u]
  {
    var g := (x - 0xF0) * 64 + (y - 0x80);
    var h := g * 64 + (z - 0x80);
    var c := h * 64 + (u - 0x80);
    assert c / 64 == h && c % 64 == u - 0x80 && h / 64 == g && h % 64 == z - 0x80;
    assert g / 64 == x - 0xF0 && g % 64 == y - 0x80;
    assert c / 4096 == g && c / 262144 == g / 64;
  }

  /** A well-formed sequence is the encoding of its value, which is a code point that can be encoded. */
  lemma MatchedIsEncoded(b: Bytes)
    requires b != [] && Lead(b[0]) > 0 && Matched(b) == Lead(b[0])
    ensures Scalar(Value(b)) && Encode(Value(b)) == b[..Matched(b)]
  {
    match Lead(b[0])
    case 1 =>
    case 2 => TwoBytes(b[0], b[1]);
    case 3 => ThreeBytes(b[0], b[1], b[2]);
    case _ => FourBytes(b[0], b[1], b[2], b[3]);
  }

  lemma {:induction false} DecodedIsEncodable(b: Bytes)
    ensures Encodable(Decode(b))
    decreases |b|
  {
    if b != [] {
      if Lead(b[0]) == 0 {
        DecodedIsEncodable(b[1..]);
      } else {
        DecodedIsEncodable(b[Matched(b)..]);
        if Matched(b) == Lead(b[0]) {
          MatchedIsEncoded(b);
        }
      }
    }
  }

  /** Decoding gives a text back exactly if each of its code points can be encoded. */
  lemma RoundTripIff(t: Text)
    ensures Decode(EncodeAll(t)) == t <==> Encodable(t)
  {
    DecodedIsEncodable(EncodeAll(t));
    if Encodable(t) {
      RoundTrip(t);
    }
  }

  /** A cut-off character decodes to nothing. */
  lemma CutCharacterIsIgnored(c: nat, n: nat)
    requires Scalar(c) && n < |Encode(c)|
    ensures Decode(Encode(c)[..n]) == []
  {
    if n > 0 {
      var b := Encode(c)[..n];
      EncodedIsMatched(c, []);
      assert Encode(c) + [] == Encode(c);
      assert Matched(b) == n;
      assert b[n..] == [];
    }
  }

  // ------------------------------------------------------------- clipping

  /** How many whole characters fit into `n` bytes. */
  function Fits(t: Text, n: nat): (k: nat)
    ensures k <= |t|
  {
    if t == [] || |Encode(t[0])| > n then 0 else 1 + Fits(t[1..], n - |Encode(t[0])|)
  }

  /** It is the most. */
  lemma {:induction false} FitsIsLongest(t: Text, n: nat)
    ensures |EncodeAll(t[..Fits(t, n)])| <= n
    ensures Fits(t, n) < |t| ==> |EncodeAll(t[..Fits(t, n) + 1])| > n
  {
    if t != [] {
      if |Encode(t[0])| <= n {
        var k := Fits(t[1..], n - |Encode(t[0])|);
        FitsIsLongest(t[1..], n - |Encode(t[0])|);
        assert t[..k + 1][1..] == t[1..][..k];
        if k < |t[1..]| {
          assert t[..k + 2][1..] == t[1..][..k + 1];
        }
      } else {
        assert t[..1][1..] == [];
      }
    }
  }

  lemma CutBehind(c: Bytes, rest: Bytes, n: nat)
    requires |c| <= n
    ensures (c + rest)[..Min(n, |c + rest|)] == c + rest[..Min(n - |c|, |rest|)]
  {
  }

  lemma CutWithin(c: Bytes, rest: Bytes, n: nat)
    requires n < |c|
    ensures (c + rest)[..n] == c[..n] && Min(n, |c + rest|) == n
  {
  }

  /** Cutting the bytes and ignoring the cut-off character keeps exactly the characters that fit. */
  lemma {:induction false} ClipKeepsWholeCharacters(t: Text, n: nat)
    requires Encodable(t)
    ensures Decode(EncodeAll(t)[..Min(n, |EncodeAll(t)|)]) == t[..Fits(t, n)]
  {
    if t != [] {
      var c, rest := Encode(t[0]), EncodeAll(t[1..]);
      if |c| <= n {
        ClipKeepsWholeCharacters(t[1..], n - |c|);
        var cut := rest[..Min(n - |c|, |rest|)];
        CutBehind(c, rest, n);
        DecodeEncoded(t[0], cut);
        assert t[..Fits(t, n)] == [t[0]] + t[1..][..Fits(t[1..], n - |c|)];
      } else {
        CutWithin(c, rest, n);
        CutCharacterIsIgnored(t[0], n);
      }
    }
  }

  /** Everything fits exactly when the encoding is no longer than the budget. */
  lemma {:induction false} AllFitsIff(t: Text, n: nat)
    ensures Fits(t, n) == |t| <==> |EncodeAll(t)| <= n
  {
    if t != [] && |Encode(t[0])| <= n {
      AllFitsIff(t[1..], n - |Encode(t[0])|);
    }
  }

  // ------------------------------------------------------------ collecting

  datatype Stream = Stdout | Stderr

  /** What is kept of a text when `remaining` bytes are left. */
  function Stored(t: Text, remaining: int): Text {
    if remaining <= 0 then [] else t[..Fits(t, remaining)]
  }

  /** When the flag is raised. */
  predicate Flagged(t: Text, remaining: int) {
    remaining <= 0 || |EncodeAll(t)| > remaining
  }

  /** The flag says that something was lost, except for an empty text that comes when the budget is used up. */
  lemma FlagIsExactUnlessEmptyAtLimit(t: Text, remaining: int)
    ensures (Flagged(t, remaining) <==> Stored(t, remaining) != t) <==> !(t == [] && remaining <= 0)
  {
    if remaining > 0 {
      AllFitsIff(t, remaining);
    }
  }

  function Joined(pieces: seq<Text>): Text {
    if pieces == [] then [] else Joined(pieces[..|pieces| - 1]) + pieces[|pieces| - 1]
  }

  lemma {:induction false} EncodeConcat(a: Text, b: Text)
    ensures EncodeAll(a + b) == EncodeAll(a) + EncodeAll(b)
  {
    if a == [] {
      assert a + b == b;
    } else {
      assert (a + b)[1..] == a[1..] + b;
      EncodeConcat(a[1..], b);
    }
  }

  lemma JoinedSnoc(pieces: seq<Text>, t: Text)
    ensures Joined(pieces + [t]) == Joined(pieces) + t
    ensures |EncodeAll(Joined(pieces + [t]))| == |EncodeAll(Joined(pieces))| + |EncodeAll(t)|
  {
    assert (pieces + [t])[..|pieces|] == pieces;
    EncodeConcat(Joined(pieces), t);
  }

  /** Cuts a text's bytes to the budget and decodes what is left. */
  method Clip(text: Text, remaining: nat) returns (content: Text, cut: bool)
    requires Encodable(text) && remaining > 0
    ensures content == Stored(text, remaining) && |EncodeAll(content)| <= remaining
    ensures cut == Flagged(text, remaining)
    ensures !cut ==> content == text
  {
    var encoded := EncodeAll(text);
    var clipped := encoded[..Min(remaining, |encoded|)];
    cut := |clipped| < |encoded|;
    content := Decode(clipped);
    ClipKeepsWholeCharacters(text, remaining);
    FitsIsLongest(text, remaining);
    AllFitsIff(text, remaining);
  }

  class OutputCollector {
    const limitBytes: int
    var usedBytes: int
    var stdout: seq<Text>
    var stderr: seq<Text>
    var truncated: bool
    /** Everything that was sent to either stream. */
    ghost var sentOut: Text
    ghost var sentErr: Text

    ghost predicate Valid()
      reads this
    {
      && usedBytes == |EncodeAll(Joined(stdout))| + |EncodeAll(Joined(stderr))|
      && usedBytes <= Max(0, limitBytes)
      && (!truncated ==> Joined(stdout) == sentOut && Joined(stderr) == sentErr)
    }

    constructor (limitBytes: int)
      ensures Valid() && this.limitBytes == limitBytes
      ensures stdout == [] && stderr == [] && usedBytes == 0 && !truncated && sentOut == [] && sentErr == []
    {
      this.limitBytes := limitBytes;
      usedBytes, stdout, stderr, truncated := 0, [], [], false;
      sentOut, sentErr := [], [];
    }

    /** Adds a text, or as many of its characters as fit; a text that cannot be encoded is an error. */
    method Append(stream: Stream, text: Text) returns (ok: bool)
      requires Valid()
      modifies this
      ensures Valid()
      ensures ok == Encodable(text)
      ensures !ok ==> unchanged(this)
      ensures ok ==>
                var kept := Stored(text, limitBytes - old(usedBytes));
                && Joined(stdout) == old(Joined(stdout)) + (if stream == Stdout then kept else [])
                && Joined(stderr) == old(Joined(stderr)) + (if stream == Stderr then kept else [])
                && usedBytes == old(usedBytes) + |EncodeAll(kept)|
                && truncated == (old(truncated) || Flagged(text, limitBytes - old(usedBytes)))
                && sentOut == old(sentOut) + (if stream == Stdout then text else [])
                && sentErr == old(sentErr) + (if stream == Stderr then text else [])
    {
      if !Encodable(text) {
        return false;
      }
      var remaining := limitBytes - usedBytes;
      if stream == Stdout {
        sentOut := sentOut + text;
      } else {
        sentErr := sentErr + text;
      }
      if remaining <= 0 {
        truncated := true;
        return true;
      }
      var content, cut := Clip(text, remaining);
      truncated := truncated || cut;
      Keep(stream, content);
      return true;
    }

    /** Stores a piece and counts its bytes. */
    method Keep(stream: Stream, content: Text)
      modifies `usedBytes, `stdout, `stderr
      ensures Joined(stdout) == old(Joined(stdout)) + (if stream == Stdout then content else [])
      ensures Joined(stderr) == old(Joined(stderr)) + (if stream == Stderr then content else [])
      ensures usedBytes == old(usedBytes) + |EncodeAll(content)|
      ensures |EncodeAll(Joined(stdout))| + |EncodeAll(Joined(stderr))|
              == old(|EncodeAll(Joined(stdout))| + |EncodeAll(Joined(stderr))|) + |EncodeAll(content)|
    {
      usedBytes := usedBytes + |EncodeAll(content)|;
      if stream == Stdout {
        JoinedSnoc(stdout, content);
        stdout := stdout + [content];
      } else {
        JoinedSnoc(stderr, content);
        stderr := stderr + [content];
      }
    }
  }
}
