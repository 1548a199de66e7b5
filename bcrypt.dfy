/** A stand-in for bcryptjs `hash` and `compare`. The real digest is one-way; here it
    is only required to be checkable against the plaintext it came from, so the
    digest carries the cost prefix, the salt and then the key bcrypt actually
    reads: the password with a NUL appended, repeated until 72 units are read. */
module Bcrypt {

  /** The version and cost prefix of a cost-12 digest. */
  const Prefix: string := "$2a$12$"

  /** The length of the encoded salt that follows the prefix. */
  const SaltLength: nat := 22

  /** bcrypt's key schedule reads exactly this many units of the key. */
  const MaxInput: nat := 72

  /** The key stream the digest depends on: `password + "\0"` read cyclically for
      72 units. A password of 72 units or more is cut to its first 72. */
  function Significant(password: string): (r: string)
    ensures |r| == MaxInput
    ensures |password| >= MaxInput ==> r == password[..MaxInput]
    ensures |password| < MaxInput ==> r[..|password|] == password && r[|password|] == '\0'
  {
    var key := password + "\0";
    var r := seq(MaxInput, i requires 0 <= i < MaxInput => key[i % |key|]);
    assert forall i :: 0 <= i < MaxInput && i < |key| ==> r[i] == key[i] by {
      forall i | 0 <= i < MaxInput && i < |key| {
        ModSmall(i, |key|);
      }
    }
    r
  }

  lemma ModSmall(i: nat, k: nat)
    requires i < k
    ensures i % k == i
  {
  }

  /** `bcrypt.compare(password, digest)`. */
  predicate Compare(password: string, digest: string) {
    && |digest| >= |Prefix| + SaltLength
    && digest[..|Prefix|] == Prefix
    && digest[|Prefix| + SaltLength..] == Significant(password)
  }

  /** `bcrypt.hash(password, 12)`, with the random salt passed in. */
  function Hash(password: string, salt: string): (digest: string)
    requires |salt| == SaltLength
    ensures Compare(password, digest)
    ensures |digest| == |Prefix| + SaltLength + MaxInput
    ensures |password| != |digest| ==> digest != password
  {
    Prefix + salt + Significant(password)
  }

  /** A digest accepts exactly the passwords whose key stream equals that of the
      one it was made from, whatever the salt. */
  lemma CompareHash(password: string, candidate: string, salt: string)
    requires |salt| == SaltLength
    ensures Compare(candidate, Hash(password, salt)) <==> Significant(candidate) == Significant(password)
  {
    var d := Hash(password, salt);
    assert d[|Prefix| + SaltLength..] == Significant(password);
  }

  /** Without NUL units and up to 72 units, the key stream determines the password:
      its first NUL, if any, marks where the password ends. */
  lemma {:induction false} SignificantInjective(p: string, q: string)
    requires |p| <= MaxInput && |q| <= MaxInput && '\0' !in p && '\0' !in q
    requires Significant(p) == Significant(q)
    ensures p == q
  {
    if |p| < MaxInput {
      assert p == Significant(p)[..|p|];
    }
  }

  /** Up to 72 units and without NUL, a digest accepts exactly its own password. */
  lemma CompareHashShort(password: string, candidate: string, salt: string)
    requires |salt| == SaltLength && |password| <= MaxInput && |candidate| <= MaxInput
    requires '\0' !in password && '\0' !in candidate
    ensures Compare(candidate, Hash(password, salt)) <==> candidate == password
  {
    CompareHash(password, candidate, salt);
    if Significant(candidate) == Significant(password) {
      SignificantInjective(candidate, password);
    }
  }

  /** Past 72 units nothing is read: a 73-unit password's digest also accepts a
      different password that shares its first 72 units. */
  lemma LongPasswordsCollide(salt: string)
    requires |salt| == SaltLength
    ensures var password, candidate := seq(73, _ => 'a'), seq(72, _ => 'a') + "b";
      candidate != password && Compare(candidate, Hash(password, salt))
  {
    var password, candidate := seq(73, _ => 'a'), seq(72, _ => 'a') + "b";
    assert candidate[72] != password[72];
    assert Significant(candidate) == Significant(password);
    CompareHash(password, candidate, salt);
  }

  /** The key is read cyclically, so a password that repeats another one after a
      NUL gives the same key stream: a digest of "ab" also accepts "ab\0ab". */
  lemma NulRepeatCollides(salt: string)
    requires |salt| == SaltLength
    ensures "ab\0ab" != "ab" && Compare("ab\0ab", Hash("ab", salt))
  {
    var short, long := "ab" + "\0", "ab\0ab" + "\0";
    forall i | 0 <= i < MaxInput
      ensures Significant("ab\0ab")[i] == Significant("ab")[i]
    {
      assert long[i % 6] == short[(i % 6) % 3];
      assert (i % 6) % 3 == i % 3;
    }
    CompareHash("ab", "ab\0ab", salt);
  }
}
