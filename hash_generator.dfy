/** The hash generator: a keyed MAC over an ordered list of strings, fed to
    the hash extension one part at a time with nothing in between. */
module HashGenerator {
  import opened Php

  const DefaultAlgo: string := "sha256"
  const DefaultSecret: string := "secret"

  /** The parts joined in order, with no separator. */
  function Concat(parts: seq<string>): string
  {
    if parts == [] then "" else parts[0] + Concat(parts[1..])
  }

  lemma {:induction false} ConcatAppend(a: seq<string>, b: seq<string>)
    ensures Concat(a + b) == Concat(a) + Concat(b)
  {
    if a == [] {
      assert a + b == b;
    } else {
      assert (a + b)[1..] == a[1..] + b;
      ConcatAppend(a[1..], b);
    }
  }

  lemma ConcatSingle(s: string)
    ensures Concat([s]) == s
  {
  }

  lemma ConcatThree(a: string, b: string, c: string)
    ensures Concat([a, b, c]) == a + b + c
  {
    assert [a, b, c] == [a] + [b] + [c];
    ConcatAppend([a] + [b], [c]);
    ConcatAppend([a], [b]);
    ConcatSingle(a);
    ConcatSingle(b);
    ConcatSingle(c);
  }

  /** Every part sits, unchanged, right after the parts before it: the
      concatenation keeps each part and the order of the parts. */
  lemma PartInPlace(parts: seq<string>, i: nat)
    requires i < |parts|
    ensures var start := |Concat(parts[..i])|;
      start + |parts[i]| <= |Concat(parts)| &&
      Concat(parts)[start..start + |parts[i]|] == parts[i]
  {
    assert parts == parts[..i] + [parts[i]] + parts[i + 1..];
    ConcatAppend(parts[..i] + [parts[i]], parts[i + 1..]);
    ConcatAppend(parts[..i], [parts[i]]);
  }

  /** The signature of `parts`: one MAC over their concatenation. */
  function Digest(hmac: Hmac, algo: string, key: string, parts: seq<string>): string
  {
    hmac(algo, key, Concat(parts))
  }

  /** Joining the parts beforehand does not change the signature. */
  lemma {:induction false} DigestOfJoined(hmac: Hmac, algo: string, key: string, parts: seq<string>)
    ensures Digest(hmac, algo, key, parts) == Digest(hmac, algo, key, [Concat(parts)])
  {
    ConcatSingle(Concat(parts));
  }

  /** Regrouping the parts does not change the signature, so part lists are
      only told apart by their concatenation. */
  lemma {:induction false} DigestOfRegrouped(hmac: Hmac, algo: string, key: string, a: seq<string>, b: seq<string>)
    ensures Digest(hmac, algo, key, a + b) == Digest(hmac, algo, key, [Concat(a), Concat(b)])
  {
    ConcatAppend(a, b);
    ConcatAppend([Concat(a)], [Concat(b)]);
    ConcatSingle(Concat(a));
    ConcatSingle(Concat(b));
  }

  /** No separator is inserted: ["ab", "c"] and ["a", "bc"] sign the same. */
  lemma {:induction false} SeparatorFreeCollision(hmac: Hmac, algo: string, key: string)
    ensures Digest(hmac, algo, key, ["ab", "c"]) == Digest(hmac, algo, key, ["a", "bc"])
  {
    ConcatAppend(["ab"], ["c"]);
    ConcatAppend(["a"], ["bc"]);
    ConcatSingle("ab");
    ConcatSingle("c");
    ConcatSingle("a");
    ConcatSingle("bc");
    assert "ab" + "c" == "a" + "bc";
  }

  /** The HMAC context of the hash extension: algorithm, key and the input fed
      so far. hash_final computes the MAC of everything fed. */
  datatype MacContext = MacContext(algo: string, key: string, input: string)

  function HashInit(algo: string, key: string): MacContext
  {
    MacContext(algo, key, "")
  }

  function HashUpdate(context: MacContext, data: string): MacContext
  {
    context.(input := context.input + data)
  }

  function HashFinal(hmac: Hmac, context: MacContext): string
  {
    hmac(context.algo, context.key, context.input)
  }

  class HashGenerator {
    const algo: string
    const secret: string

    constructor (secret: string := DefaultSecret, algo: string := DefaultAlgo)
      ensures this.secret == secret && this.algo == algo
    {
      this.algo := algo;
      this.secret := secret;
    }

    /** Feeds the parts to a fresh MAC context in order and finalises it.
        The context is local, so the generator itself is left as it was. */
    method Generate(hmac: Hmac, data: seq<string>) returns (digest: string)
      ensures digest == Digest(hmac, algo, secret, data)
      ensures data == [] ==> digest == hmac(algo, secret, "")
    {
      var context := HashInit(algo, secret);
      for i := 0 to |data|
        invariant context == MacContext(algo, secret, Concat(data[..i]))
      {
        ConcatAppend(data[..i], [data[i]]);
        assert data[..i + 1] == data[..i] + [data[i]];
        context := HashUpdate(context, data[i]);
      }
      assert data[..|data|] == data;
      digest := HashFinal(hmac, context);
    }
  }
}
