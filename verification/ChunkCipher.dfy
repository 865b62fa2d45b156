/** Sealing of file chunks (filetransfer/sender.go). The AEAD is idealised: a sealed chunk is
    a value that records the key, associated data and plaintext it was made from together with
    the bytes that travel (nonce, ciphertext and tag, chosen by the cipher's randomness), and it
    opens only under the same key and the same associated data. */
module ChunkCipher {
  import opened Basics

  datatype Key = Key(secret: Bytes)

  /** What travels in a data frame: a bare chunk when no session key was agreed, or a sealed one. */
  datatype Payload =
    | Clear(chunk: Bytes)
    | Sealed(key: Key, wire: Bytes, aad: string, plaintext: Bytes)

  // ---- Associated data -------------------------------------------------------------------

  function Digit(d: nat): char
    requires d < 10
  {
    '0' + d as char
  }

  /** Decimal printing, as %d does. */
  function Decimal(n: nat): string {
    if n < 10 then [Digit(n)] else Decimal(n / 10) + [Digit(n % 10)]
  }

  /** The number a digit string denotes. */
  function Value(s: string): nat
    requires forall i :: 0 <= i < |s| ==> '0' <= s[i] <= '9'
  {
    if |s| == 0 then 0 else 10 * Value(s[..|s| - 1]) + (s[|s| - 1] - '0') as nat
  }

  lemma {:induction false} DecimalRoundTrip(n: nat)
    ensures forall i :: 0 <= i < |Decimal(n)| ==> '0' <= Decimal(n)[i] <= '9'
    ensures Value(Decimal(n)) == n
  {
    if n < 10 {
      assert Decimal(n)[..0] == [];
    } else {
      DecimalRoundTrip(n / 10);
      assert Decimal(n)[..|Decimal(n)| - 1] == Decimal(n / 10);
    }
  }

  function ChunkAAD(fileId: string, seqNo: UInt32): string {
    fileId + "|" + Decimal(seqNo)
  }

  /** A string splits in only one way into a prefix, a bar, and a suffix without bars. */
  lemma UniqueLastBar(f: string, d: string, f': string, d': string)
    requires '|' !in d && '|' !in d'
    requires f + "|" + d == f' + "|" + d'
    ensures f == f' && d == d'
  {
    var s := f + "|" + d;
    assert s[|f|] == '|' && s == f' + "|" + d' && s[|f'|] == '|';
    if |f| < |f'| {
      assert false;
    } else if |f'| < |f| {
      assert false;
    } else {
      assert f == s[..|f|] && f' == s[..|f|];
      assert d == s[|f| + 1..] && d' == s[|f| + 1..];
    }
  }

  /** The associated data determine the transfer and the sequence number, also for file IDs
      that contain bars themselves. */
  lemma ChunkAADInjective(f: string, s: UInt32, f': string, s': UInt32)
    ensures ChunkAAD(f, s) == ChunkAAD(f', s') <==> f == f' && s == s'
  {
    DecimalRoundTrip(s);
    DecimalRoundTrip(s');
    if ChunkAAD(f, s) == ChunkAAD(f', s') {
      UniqueLastBar(f, Decimal(s), f', Decimal(s'));
    }
  }

  // ---- Sealing and opening ---------------------------------------------------------------

  function EncryptChunk(key: Key, wire: Bytes, plaintext: Bytes, aad: string): Payload {
    Sealed(key, wire, aad, plaintext)
  }

  /** A payload that was not sealed at all never authenticates. */
  function DecryptChunk(key: Key, data: Payload, aad: string): Option<Bytes> {
    if data.Sealed? && data.key == key && data.aad == aad then Some(data.plaintext) else None
  }

  /** A chunk opened at position (file, seq) was sealed for that very position, with that key,
      and yields the sealed bytes; and every such chunk opens. */
  lemma OpensOnlyWhereSealed(k: Key, f: string, s: UInt32, data: Payload, p: Bytes)
    ensures DecryptChunk(k, data, ChunkAAD(f, s)) == Some(p)
       <==> exists wire :: data == EncryptChunk(k, wire, p, ChunkAAD(f, s))
  {
    if DecryptChunk(k, data, ChunkAAD(f, s)) == Some(p) {
      assert data == EncryptChunk(k, data.wire, p, ChunkAAD(f, s));
    }
  }

  /** No splicing: a chunk sealed for one position of one transfer opens at no other. */
  lemma NoSplicing(k: Key, k': Key, wire: Bytes, p: Bytes, f: string, s: UInt32, f': string, s': UInt32)
    ensures DecryptChunk(k', EncryptChunk(k, wire, p, ChunkAAD(f, s)), ChunkAAD(f', s'))
         == if k == k' && f == f' && s == s' then Some(p) else None
  {
    ChunkAADInjective(f, s, f', s');
  }
}
