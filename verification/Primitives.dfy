/** The external algorithms the client relies on, as functions it is given, and what is assumed of
    them: AES-256-GCM (NIST SP 800-38D) opens what it sealed and adds a 16-byte tag, zstd
    decompresses what it compressed within its documented bound, and FastCDC cuts a file into
    consecutive pieces. BLAKE3 and HKDF are functions of their input and nothing more. */
module Primitives {
  import opened Wrappers
  import opened ByteStrings

  type Hash = h: Bytes | |h| == 32 witness seq(32, _ => 0)
  type PackfileId = id: Bytes | |id| == 12 witness seq(12, _ => 0)
  type Nonce = n: Bytes | |n| == 12 witness seq(12, _ => 0)
  type Key = Bytes

  /** A client's public key. */
  type ClientId = c: Bytes | |c| == 32 witness seq(32, _ => 0)

  const NONCE_SIZE: nat := 12
  const TAG_SIZE: nat := 16

  /** Largest blob before compression: 3 MiB. */
  const BLOB_MAX: nat := 3_145_728
  /** Largest blob after compression, at most n + n / 256 + 64 bytes for n, and sealing. */
  const SEALED_MAX: nat := 3_158_096

  datatype Primitives = Primitives(
    blake3: Bytes -> Hash,
    deriveKey: Bytes -> Key,
    seal: (Key, Nonce, Bytes) -> Bytes,
    open: (Key, Nonce, Bytes) -> Option<Bytes>,
    compress: Bytes -> Bytes,
    decompress: (Bytes, nat) -> Option<Bytes>,
    chunks: Bytes -> seq<Bytes>)

  ghost predicate SealsAndOpens(p: Primitives) {
    forall k: Key, n: Nonce, d: Bytes ::
      |p.seal(k, n, d)| == |d| + TAG_SIZE && p.open(k, n, p.seal(k, n, d)) == Some(d)
  }

  ghost predicate Decompresses(p: Primitives) {
    forall d: Bytes :: |d| <= BLOB_MAX ==>
      |p.compress(d)| + TAG_SIZE <= SEALED_MAX && p.decompress(p.compress(d), BLOB_MAX) == Some(d)
  }

  ghost predicate CutsIntoChunks(p: Primitives) {
    forall d: Bytes ::
      Concat(p.chunks(d)) == d && (d != [] ==> |p.chunks(d)| <= |d|) && forall c :: c in p.chunks(d) ==> |c| <= BLOB_MAX
  }

  ghost predicate Lawful(p: Primitives) {
    SealsAndOpens(p) && Decompresses(p) && CutsIntoChunks(p)
  }

  /** Primitives that hide and compress nothing. */
  function Transparent(): Primitives {
    Primitives(
      _ => seq(32, _ => 0),
      d => d,
      (k, n, d) => d + seq(16, _ => 0),
      (k, n, d) => if |d| < 16 then None else Some(d[..|d| - 16]),
      d => d,
      (d, cap) => Some(d),
      d => Pieces(d))
  }

  lemma {:induction false} TransparentOpens()
    ensures SealsAndOpens(Transparent())
  {
    forall k: Key, n: Nonce, d: Bytes
      ensures |Transparent().seal(k, n, d)| == |d| + TAG_SIZE
      ensures Transparent().open(k, n, Transparent().seal(k, n, d)) == Some(d)
    {
      assert (d + seq(16, _ => 0))[..|d|] == d;
    }
  }

  lemma {:induction false} TransparentCuts()
    ensures CutsIntoChunks(Transparent())
  {
    hide Pieces;
    forall d: Bytes
      ensures Concat(Pieces(d)) == d && (d != [] ==> |Pieces(d)| <= |d|) && forall c :: c in Pieces(d) ==>
                |c| <= BLOB_MAX
    {
      PiecesCut(d);
    }
  }

  /** The laws can be met together, so no theorem that assumes them is empty. */
  lemma {:induction false} LawsAreSatisfiable()
    ensures exists p :: Lawful(p)
  {
    hide CutsIntoChunks, SealsAndOpens;
    TransparentOpens();
    TransparentCuts();
    assert Lawful(Transparent());
  }

  function Pieces(d: Bytes): seq<Bytes> {
    if |d| <= BLOB_MAX then [d] else [d[..BLOB_MAX]] + Pieces(d[BLOB_MAX..])
  }

  lemma {:induction false} PiecesCut(d: Bytes)
    ensures Concat(Pieces(d)) == d
    ensures d != [] ==> |Pieces(d)| <= |d|
    ensures forall c :: c in Pieces(d) ==> |c| <= BLOB_MAX
  {
    if |d| > BLOB_MAX {
      PiecesCut(d[BLOB_MAX..]);
      assert Pieces(d)[1..] == Pieces(d[BLOB_MAX..]);
    } else {
      assert Pieces(d)[1..] == [];
    }
  }
}
