/** Cutting the tail of captured output without splitting a character (spoolctl/operations.py),
    against the encoding of section 3 of RFC 3629. */
module TailCut {

  newtype Byte = x: int | 0 <= x < 256

  predicate Continuation(b: Byte) {
    0x80 <= b < 0xC0
  }

  // ----- UTF-8 -----

  /** Unicode scalar values: no surrogates. */
  type CodePoint = c: int | 0 <= c < 0xD800 || 0xE000 <= c < 0x110000

  /** One to four bytes; all but the first are continuation bytes, and the first one tells how many they are. */
  function Encode(c: CodePoint): (s: seq<Byte>)
    ensures 1 <= |s| <= 4
    ensures !Continuation(s[0])
    ensures forall i :: 0 < i < |s| ==> Continuation(s[i])
    ensures |s| == 1 <==> s[0] <= 0x7F
    ensures |s| == 2 <==> 0xC2 <= s[0] <= 0xDF
    ensures |s| == 3 <==> 0xE0 <= s[0] <= 0xEF
    ensures |s| == 4 <==> 0xF0 <= s[0] <= 0xF4
  {
    if c < 0x80 then [c as Byte]
    else if c < 0x800 then [(0xC0 + c / 0x40) as Byte, Trailer(c)]
    else if c < 0x10000 then [(0xE0 + c / 0x1000) as Byte, Trailer(c / 0x40), Trailer(c)]
    else [(0xF0 + c / 0x40000) as Byte, Trailer(c / 0x1000), Trailer(c / 0x40), Trailer(c)]
  }

  function Trailer(n: nat): (b: Byte)
    ensures Continuation(b)
  {
    (0x80 + n % 0x40) as Byte
  }

  function EncodeAll(cs: seq<CodePoint>): seq<Byte> {
    if cs == [] then [] else Encode(cs[0]) + EncodeAll(cs[1..])
  }

  /** The value that a well-formed byte sequence stands for. */
  function Value(s: seq<Byte>): int
    requires 1 <= |s| <= 4
  {
    var n := |s|;
    if n == 1 then s[0] as int
    else if n == 2 then (s[0] as int - 0xC0) * 0x40 + (s[1] as int - 0x80)
    else if n == 3 then (s[0] as int - 0xE0) * 0x1000 + (s[1] as int - 0x80) * 0x40 + (s[2] as int - 0x80)
    else
      (s[0] as int - 0xF0) * 0x40000 + (s[1] as int - 0x80) * 0x1000 + (s[2] as int - 0x80) * 0x40
      + (s[3] as int - 0x80)
  }

  lemma SixBits(n: nat)
    ensures n == n / 0x40 * 0x40 + n % 0x40
    ensures n / 0x1000 == n / 0x40 / 0x40 && n / 0x40000 == n / 0x1000 / 0x40
  {
  }

  /** Encoding loses nothing. */
  lemma ValueInvertsEncode(c: CodePoint)
    ensures Value(Encode(c)) == c
  {
    SixBits(c);
    SixBits(c / 0x40);
    SixBits(c / 0x1000);
  }

  // ----- the cut -----

  /** The bytes that are decoded, and whether anything was cut off. A tail size of zero keeps nothing. */
  method CutTail(blob: seq<Byte>, tailBytes: nat) returns (chunk: seq<Byte>, truncated: bool)
    ensures truncated <==> |blob| > tailBytes
    ensures chunk == Kept(blob, tailBytes)
  {
    truncated := |blob| > tailBytes;
    chunk := if tailBytes == 0 then [] else if truncated then blob[|blob| - tailBytes..] else blob;
    if truncated {
      var start := 0;
      while start < 3 && start < |chunk| && Continuation(chunk[start])
        invariant 0 <= start <= 3 && start <= |chunk|
        invariant forall i :: 0 <= i < start ==> Continuation(chunk[i])
      {
        start := start + 1;
      }
      OrphanCount(chunk, start);
      chunk := chunk[start..];
    }
  }

  /** How many leading continuation bytes, at most `most`, a chunk has. */
  function Orphans(chunk: seq<Byte>, most: nat): (n: nat)
    ensures n <= most && n <= |chunk|
    ensures forall i :: 0 <= i < n ==> Continuation(chunk[i])
    ensures n < most && n < |chunk| ==> !Continuation(chunk[n])
  {
    if most == 0 || chunk == [] || !Continuation(chunk[0]) then 0
    else
      var n := Orphans(chunk[1..], most - 1);
      assert forall i :: 0 < i < n + 1 ==> chunk[i] == chunk[1..][i - 1];
      n + 1
  }

  lemma OrphanCount(chunk: seq<Byte>, n: nat)
    requires n <= 3 && n <= |chunk| && forall i :: 0 <= i < n ==> Continuation(chunk[i])
    requires n == 3 || n == |chunk| || !Continuation(chunk[n])
    ensures Orphans(chunk, 3) == n
  {
  }

  function Kept(blob: seq<Byte>, tailBytes: nat): seq<Byte> {
    if |blob| <= tailBytes then (if tailBytes == 0 then [] else blob)
    else
      var chunk := blob[|blob| - tailBytes..];
      chunk[Orphans(chunk, 3)..]
  }

  /** For arbitrary bytes: what is kept is a suffix that fits; of the bytes inside the tail at most three are
      dropped, all of them continuation bytes, whose two highest bits are 10, and fewer than three only up to a byte
      that is none. */
  lemma DropsAtMostThree(blob: seq<Byte>, tailBytes: nat)
    ensures var kept := Kept(blob, tailBytes); var tail := if |blob| <= tailBytes then |blob| else tailBytes;
      var dropped := tail - |kept|;
      && |kept| <= tail && kept == blob[|blob| - |kept|..]
      && 0 <= dropped <= 3
      && (|blob| <= tailBytes ==> dropped == 0)
      && (forall i :: |blob| - tail <= i < |blob| - |kept| ==> blob[i] as int / 64 == 2)
      && (|blob| > tailBytes && dropped < 3 && kept != [] ==> kept[0] as int / 64 != 2)
  {
    TopBits();
    hide Continuation;
    if |blob| > tailBytes {
      var chunk := blob[|blob| - tailBytes..];
      var n := Orphans(chunk, 3);
      assert chunk[n..] == blob[|blob| - tailBytes + n..];
      assert forall i :: 0 <= i < n ==> blob[|blob| - tailBytes + i] == chunk[i];
    }
  }

  lemma TopBits()
    ensures forall b: Byte :: Continuation(b) <==> b as int / 64 == 2
  {
  }

  // ----- on valid UTF-8 -----

  lemma {:induction false} EncodeAllSplit(cs: seq<CodePoint>, k: nat)
    requires k <= |cs|
    ensures EncodeAll(cs) == EncodeAll(cs[..k]) + EncodeAll(cs[k..])
  {
    if k == 0 {
      assert cs[..0] == [] && cs[0..] == cs;
    } else {
      EncodeAllSplit(cs[1..], k - 1);
      assert cs[..k][0] == cs[0] && cs[..k][1..] == cs[1..][..k - 1] && cs[1..][k - 1..] == cs[k..];
    }
  }

  /** The text starts with a byte that begins a character. */
  lemma StartsCharacter(cs: seq<CodePoint>)
    requires cs != []
    ensures EncodeAll(cs) != [] && !Continuation(EncodeAll(cs)[0])
  {
    assert EncodeAll(cs)[0] == Encode(cs[0])[0];
  }

  /** The character in which byte offset `at` falls, with the offset inside it. */
  lemma {:induction false} Locate(cs: seq<CodePoint>, at: nat) returns (k: nat, o: nat)
    requires at < |EncodeAll(cs)|
    ensures k < |cs| && o < |Encode(cs[k])| && at == |EncodeAll(cs[..k])| + o
  {
    var n := |Encode(cs[0])|;
    if at < n {
      k, o := 0, at;
      assert cs[..0] == [];
    } else {
      k, o := Locate(cs[1..], at - n);
      assert cs[..k + 1][0] == cs[0] && cs[..k + 1][1..] == cs[1..][..k];
      k := k + 1;
    }
  }

  /** Dropping the orphans of a character cut after `o` of its bytes leaves exactly the characters behind it. */
  lemma CutCharacter(c: CodePoint, o: nat, rest: seq<CodePoint>)
    requires 0 < o < |Encode(c)|
    ensures var chunk := Encode(c)[o..] + EncodeAll(rest); chunk[Orphans(chunk, 3)..] == EncodeAll(rest)
  {
    var head := Encode(c)[o..];
    var chunk := head + EncodeAll(rest);
    assert forall i :: 0 <= i < |head| ==> chunk[i] == Encode(c)[o + i];
    if rest != [] {
      StartsCharacter(rest);
      assert chunk[|head|] == EncodeAll(rest)[0];
    }
    OrphanCount(chunk, |head|);
  }

  /** The bytes from offset `o` of character `k` on. */
  lemma ChunkAt(cs: seq<CodePoint>, k: nat, o: nat)
    requires k < |cs| && o < |Encode(cs[k])|
    ensures |EncodeAll(cs[k..])| == |Encode(cs[k])| + |EncodeAll(cs[k + 1..])|
    ensures |EncodeAll(cs)| == |EncodeAll(cs[..k])| + |EncodeAll(cs[k..])|
    ensures EncodeAll(cs)[|EncodeAll(cs[..k])| + o..] == Encode(cs[k])[o..] + EncodeAll(cs[k + 1..])
  {
    EncodeAllSplit(cs, k);
    assert cs[k..][0] == cs[k] && cs[k..][1..] == cs[k + 1..];
    var a, b, c := EncodeAll(cs[..k]), Encode(cs[k]), EncodeAll(cs[k + 1..]);
    assert EncodeAll(cs[k..]) == b + c;
    assert (a + (b + c))[|a| + o..] == b[o..] + c;
  }

  /** The kept bytes are those of the characters from `k` on, these fit, and one more would not. */
  ghost predicate LongestFrom(cs: seq<CodePoint>, tailBytes: nat, k: int) {
    && 0 <= k <= |cs|
    && Kept(EncodeAll(cs), tailBytes) == EncodeAll(cs[k..])
    && |EncodeAll(cs[k..])| <= tailBytes
    && forall m :: 0 <= m < k ==> |EncodeAll(cs[m..])| > tailBytes
  }

  /** For every text in UTF-8 and every positive tail size, the kept bytes encode the longest run of whole
      characters at the end of the text that fits into the tail. */
  lemma KeepsLongestWholeSuffix(cs: seq<CodePoint>, tailBytes: nat)
    requires tailBytes >= 1
    ensures exists k :: LongestFrom(cs, tailBytes, k)
  {
    if |EncodeAll(cs)| <= tailBytes {
      assert cs[0..] == cs;
      assert LongestFrom(cs, tailBytes, 0);
    } else {
      var k, o := Locate(cs, |EncodeAll(cs)| - tailBytes);
      CutAt(cs, tailBytes, k, o);
    }
  }

  /** The cut falls into character `k` after `o` of its bytes. */
  lemma CutAt(cs: seq<CodePoint>, tailBytes: nat, k: nat, o: nat)
    requires 1 <= tailBytes < |EncodeAll(cs)| && k < |cs| && o < |Encode(cs[k])|
    requires |EncodeAll(cs)| - tailBytes == |EncodeAll(cs[..k])| + o
    ensures LongestFrom(cs, tailBytes, if o == 0 then k else k + 1)
  {
    hide EncodeAll, Encode, Orphans;
    var chunk := EncodeAll(cs)[|EncodeAll(cs)| - tailBytes..];
    ChunkAt(cs, k, o);
    LongerSuffixes(cs, k);
    assert chunk == Encode(cs[k])[o..] + EncodeAll(cs[k + 1..]);
    assert Kept(EncodeAll(cs), tailBytes) == chunk[Orphans(chunk, 3)..];
    if o == 0 {
      KeptWhole(cs, k);
    } else {
      CutCharacter(cs[k], o, cs[k + 1..]);
    }
  }

  /** A cut between two characters drops nothing. */
  lemma KeptWhole(cs: seq<CodePoint>, k: nat)
    requires k < |cs|
    ensures var chunk := Encode(cs[k])[0..] + EncodeAll(cs[k + 1..]);
      chunk == EncodeAll(cs[k..]) && chunk[Orphans(chunk, 3)..] == chunk
  {
    assert cs[k..][0] == cs[k] && cs[k..][1..] == cs[k + 1..];
    StartsCharacter(cs[k..]);
    OrphanCount(EncodeAll(cs[k..]), 0);
  }

  lemma {:induction false} LongerSuffixes(cs: seq<CodePoint>, k: nat)
    requires k <= |cs|
    ensures forall m :: 0 <= m < k ==> |EncodeAll(cs[m..])| > |EncodeAll(cs[k..])|
  {
    if k > 0 {
      LongerSuffixes(cs, k - 1);
      assert cs[k - 1..][1..] == cs[k..];
    }
  }
}
