/**
 * The helpers of apps/common/utils.py.
 *
 * `generate_unique_code` draws twelve characters with `secrets.choice` and
 * retries while the code is already in use.  The randomness becomes a
 * parameter: a list of rounds, each holding the twelve draws of one attempt
 * (a draw is the index `secrets.choice` picks).  Each retry consumes one
 * round; when the list runs out the model answers `None`.
 *
 * `set_dict_attr` overwrites attributes of an object in place; the object is
 * an `Obj` whose attributes form a map from name to value.
 */
module Utils {
  import opened Wrappers

  /** The alphabet of generated codes: upper-case letters and the digits 1 to 9. */
  const Alphabet: string := "ABCDEFGHIJKLMNOPQRSTUVWXYZ123456789"
  const CodeLength: nat := 12

  /** One `secrets.choice` over the alphabet: an index into it. */
  type Draw = i: nat | i < 35

  /** The draws of one attempt. */
  type Round = s: seq<Draw> | |s| == CodeLength witness [0, 0, 0, 0, 0, 0, 0, 0, 0, 0, 0, 0]

  /** A well-formed code: twelve characters, each from the alphabet. */
  predicate IsCode(s: string)
  {
    |s| == CodeLength && forall c :: c in s ==> c in Alphabet
  }

  /** The code `''.join(...)` builds from one round of draws. */
  function Candidate(round: Round): (code: string)
    ensures IsCode(code)
    ensures forall k :: 0 <= k < CodeLength ==> code[k] == Alphabet[round[k]]
  {
    seq(CodeLength, k requires 0 <= k < CodeLength => Alphabet[round[k]])
  }

  /** Every character of the alphabet is an upper-case letter or a digit from 1 to 9. */
  lemma AlphabetAt(k: nat)
    requires k < |Alphabet|
    ensures 'A' <= Alphabet[k] <= 'Z' || '1' <= Alphabet[k] <= '9'
  {
    if k < 26 {
      assert Alphabet[k] == ('A' as int + k) as char;
    } else {
      assert Alphabet[k] == ('1' as int + k - 26) as char;
    }
  }

  /** Neither the digit zero nor a lower-case letter can occur in a code. */
  lemma CodeAvoidsZeroAndLowerCase(s: string)
    requires IsCode(s)
    ensures '0' !in s
    ensures forall c :: c in s ==> !('a' <= c <= 'z')
  {
    forall c | c in s
      ensures c != '0' && !('a' <= c <= 'z')
    {
      var k :| 0 <= k < |Alphabet| && Alphabet[k] == c;
      AlphabetAt(k);
    }
  }

  /**
   * `generate_unique_code(model, field)`: `taken` holds the values `field`
   * already has in the table.  The first round whose candidate is not taken
   * wins; a candidate that is taken is never returned, the next round is
   * tried instead.
   */
  function GenerateUniqueCode(rounds: seq<Round>, taken: set<string>): (r: Option<string>)
    ensures r.Some? ==> IsCode(r.value) && r.value !in taken
    ensures r.Some? ==> exists k :: 0 <= k < |rounds| && r.value == Candidate(rounds[k])
                                    && forall j :: 0 <= j < k ==> Candidate(rounds[j]) in taken
    ensures r.None? <==> forall k :: 0 <= k < |rounds| ==> Candidate(rounds[k]) in taken
  {
    if rounds == [] then None
    else
      var code := Candidate(rounds[0]);
      if code !in taken then
        Some(code)
      else
        var rest := GenerateUniqueCode(rounds[1..], taken);
        assert forall k :: 0 < k < |rounds| ==> rounds[k] == rounds[1..][k - 1];
        if rest.Some? then
          var k :| 0 <= k < |rounds[1..]| && rest.value == Candidate(rounds[1..][k])
                   && forall j :: 0 <= j < k ==> Candidate(rounds[1..][j]) in taken;
          assert rest.value == Candidate(rounds[k + 1]);
          rest
        else
          rest
  }

  /** An object whose attributes `setattr` can overwrite. */
  class Obj<V> {
    var attrs: map<string, V>

    constructor (attrs: map<string, V>)
      ensures this.attrs == attrs
    {
      this.attrs := attrs;
    }
  }

  /**
   * `set_dict_attr(obj, data)`: every attribute named in `data` takes the
   * given value, every other attribute keeps its value, and the same object
   * is returned.
   */
  method SetDictAttr<V>(obj: Obj<V>, data: map<string, V>) returns (r: Obj<V>)
    modifies obj
    ensures r == obj
    ensures obj.attrs.Keys == old(obj.attrs).Keys + data.Keys
    ensures forall a :: a in data ==> obj.attrs[a] == data[a]
    ensures forall a :: a in old(obj.attrs) && a !in data ==> obj.attrs[a] == old(obj.attrs)[a]
  {
    var todo := data.Keys;
    while todo != {}
      invariant todo <= data.Keys
      invariant obj.attrs.Keys == old(obj.attrs).Keys + (data.Keys - todo)
      invariant forall a :: a in data && a !in todo ==> obj.attrs[a] == data[a]
      invariant forall a :: a in old(obj.attrs) && a !in data ==> obj.attrs[a] == old(obj.attrs)[a]
      invariant forall a :: a in old(obj.attrs) && a in todo ==> obj.attrs[a] == old(obj.attrs)[a]
      decreases todo
    {
      var a :| a in todo;
      obj.attrs := obj.attrs[a := data[a]];
      todo := todo - {a};
    }
    r := obj;
  }
}
