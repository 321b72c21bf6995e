/** The abstract value `json_encode` is applied to. Text is not modelled:
    a PHP array becomes `JArray` when it is a list and `JObject` otherwise. */
module Json {
  import opened OrderedMap

  datatype Json =
    | JNull
    | JBool(b: bool)
    | JNum(n: real)
    | JStr(s: string)
    | JArray(items: seq<Json>)
    | JObject(fields: seq<(string, Json)>)

  /** A string-keyed PHP array: `[]` when it has no entries (PHP cannot tell
      an empty map from an empty list), an object otherwise. */
  function FromOMap(m: OMap<string, Json>): (r: Json)
    ensures r == JArray([]) <==> |m| == 0
    ensures r.JObject? ==> r.fields == m
    ensures |m| > 0 ==> r == JObject(m)
  {
    if |m| == 0 then JArray([]) else JObject(m)
  }

  function Digit(d: nat): (c: char)
    requires d < 10
  {
    "0123456789"[d]
  }

  /** The decimal text of an integer array key, as it appears as an object
      key once `json_encode` has to emit an object. */
  function NatToString(n: nat): (s: string)
    ensures 1 <= |s|
    ensures n < 10 <==> |s| == 1
    decreases n
  {
    if n < 10 then [Digit(n)] else NatToString(n / 10) + [Digit(n % 10)]
  }

  lemma DigitInjective(a: nat, b: nat)
    requires a < 10 && b < 10
    ensures Digit(a) == Digit(b) ==> a == b
  {
  }

  /** Distinct integer keys give distinct object keys. */
  lemma {:induction false} NatToStringInjective(a: nat, b: nat)
    ensures NatToString(a) == NatToString(b) ==> a == b
    decreases a
  {
    if NatToString(a) == NatToString(b) {
      if a < 10 {
        DigitInjective(a, b);
      } else {
        var sa, sb := NatToString(a), NatToString(b);
        assert b >= 10;
        assert sa[..|sa| - 1] == NatToString(a / 10);
        assert sb[..|sb| - 1] == NatToString(b / 10);
        NatToStringInjective(a / 10, b / 10);
        DigitInjective(a % 10, b % 10);
      }
    }
  }

  /** The keys "1", "2", ... of an array indexed from 1 are pairwise distinct. */
  lemma IndexKeysDistinct(count: nat)
    ensures forall a, b :: 1 <= a < b <= count ==> NatToString(a) != NatToString(b)
  {
    forall a, b | 1 <= a < b <= count ensures NatToString(a) != NatToString(b) {
      NatToStringInjective(a, b);
    }
  }
}
