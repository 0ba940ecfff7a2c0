/** Keys, names, key derivation and hexadecimal text, as the corestore uses them. */
module Keys {
  import opened Common

  type Key = k: seq<Byte> | |k| == 32 witness seq(32, i => 0 as Byte)
  type Name = seq<Byte>

  /**
   The cryptographic functions: the seed derived from a master key and a name (a keyed hash),
   the public key of a seed (Ed25519), the discovery key of a public key (a hash), and which
   byte strings are public keys. `names` is the finite set of names that are ever used: names
   are longer than keys, so collisions can be ruled out only for finitely many.
   */
  datatype Crypto = Crypto(
    seed: (Key, Name) -> Key, publicKey: Key -> Key, discovery: Key -> Key, isPublicKey: Key -> bool,
    names: set<Name>) {

    /** The public key of the feed with a given name. */
    function KeyOf(master: Key, name: Name): Key {
      publicKey(seed(master, name))
    }

    /** No two names in use share a key, no two keys share a discovery key, and derived keys are keys. */
    ghost predicate CollisionFree() {
      && (forall master: Key, a: Name, b: Name ::
            a in names && b in names && KeyOf(master, a) == KeyOf(master, b) ==> a == b)
      && (forall a: Key, b: Key :: discovery(a) == discovery(b) ==> a == b)
      && (forall master: Key, a: Name :: isPublicKey(KeyOf(master, a)))
    }
  }

  function Padded(name: Name): Key
    requires |name| < 32
  {
    name + [1] + seq(31 - |name|, i => 0 as Byte)
  }

  lemma {:induction false} PaddedInjective(a: Name, b: Name)
    requires |a| < 32 && |b| < 32 && Padded(a) == Padded(b)
    ensures a == b
  {
    assert Padded(a)[|a|] == 1 && Padded(b)[|b|] == 1;
    assert Padded(a)[..|a|] == a && Padded(b)[..|b|] == b;
  }

  /** The assumption can be met: here by functions that copy a short name into the key. */
  lemma {:induction false} CollisionFreeIsPossible(names: set<Name>)
    requires forall n :: n in names ==> |n| < 32
    ensures exists c: Crypto :: c.names == names && c.CollisionFree()
  {
    var zero: Key := seq(32, i => 0 as Byte);
    var c := Crypto((m, n) => if |n| < 32 then Padded(n) else zero, k => k, k => k, k => true, names);
    forall master: Key, a: Name, b: Name | a in names && b in names && c.KeyOf(master, a) == c.KeyOf(master, b)
      ensures a == b
    {
      PaddedInjective(a, b);
    }
    assert c.names == names && c.CollisionFree();
  }

  // ---- lower-case Base16, section 8 of RFC 4648 ----

  function Digit(n: nat): char
    requires n < 16
  {
    "0123456789abcdef"[n]
  }

  function Hex(bytes: seq<Byte>): (text: string)
    ensures |text| == 2 * |bytes|
  {
    if bytes == [] then "" else
      var b := bytes[0] as int;
      [Digit(b / 16), Digit(b % 16)] + Hex(bytes[1..])
  }

  lemma {:induction false} DigitInjective(a: nat, b: nat)
    requires a < 16 && b < 16 && Digit(a) == Digit(b)
    ensures a == b
  {
  }

  /** Byte `i` is written as two digits, the high four bits first. */
  lemma {:induction false} HexAt(bytes: seq<Byte>, i: nat)
    requires i < |bytes|
    ensures Hex(bytes)[2 * i] == "0123456789abcdef"[bytes[i] as int / 16]
    ensures Hex(bytes)[2 * i + 1] == "0123456789abcdef"[bytes[i] as int % 16]
  {
    if i > 0 {
      HexAt(bytes[1..], i - 1);
    }
  }

  lemma {:induction false} HexInjective(a: seq<Byte>, b: seq<Byte>)
    requires Hex(a) == Hex(b)
    ensures a == b
  {
    if a != [] {
      var x, y := Hex(a), Hex(b);
      assert x[0] == y[0] && x[1] == y[1] && x[2..] == y[2..];
      DigitInjective(a[0] as int / 16, b[0] as int / 16);
      DigitInjective(a[0] as int % 16, b[0] as int % 16);
      assert Hex(a[1..]) == x[2..] && Hex(b[1..]) == y[2..];
      HexInjective(a[1..], b[1..]);
      assert a == [a[0]] + a[1..] && b == [b[0]] + b[1..];
    }
  }
}
