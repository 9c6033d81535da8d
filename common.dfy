/** Small building blocks shared by the modules of the model: an optional
    value, JavaScript's `Array.prototype.filter`, decimal rendering of a
    number and the truthiness test that every guest store applies to the
    current guest id. */
module Common {

  /** A value that may be absent (`null` in the application). */
  datatype Option<+T> = None | Some(value: T)

  /** `if (!guestId)`: a guest id counts as present only when it is a
      non-empty string; `null` and `""` are both falsy. */
  predicate Present(guestId: Option<string>)
  {
    guestId.Some? && guestId.value != ""
  }

  /** The elements of `s` that satisfy `p`, in their original order. */
  function Filter<T(!new)>(s: seq<T>, p: T -> bool): (r: seq<T>)
    ensures |r| <= |s|
    ensures forall x :: x in r <==> x in s && p(x)
    decreases |s|
  {
    if s == [] then []
    else
      var rest := Filter(s[1..], p);
      assert forall x :: x in s <==> x == s[0] || x in s[1..];
      if p(s[0]) then [s[0]] + rest else rest
  }

  /** Filtering distributes over concatenation: the survivors keep the
      relative order they had in the input. */
  lemma {:induction false} FilterConcat<T(!new)>(a: seq<T>, b: seq<T>, p: T -> bool)
    ensures Filter(a + b, p) == Filter(a, p) + Filter(b, p)
    decreases |a|
  {
    if a == [] {
      assert a + b == b;
    } else {
      assert (a + b)[1..] == a[1..] + b;
      FilterConcat(a[1..], b, p);
    }
  }

  /** Filtering keeps every element exactly when every element passes. */
  lemma {:induction false} FilterKeepsAll<T(!new)>(s: seq<T>, p: T -> bool)
    ensures |Filter(s, p)| == |s| <==> forall i :: 0 <= i < |s| ==> p(s[i])
    ensures (forall i :: 0 <= i < |s| ==> p(s[i])) ==> Filter(s, p) == s
    decreases |s|
  {
    if s != [] {
      FilterKeepsAll(s[1..], p);
      if !p(s[0]) {
        assert |Filter(s, p)| == |Filter(s[1..], p)| <= |s| - 1;
      } else {
        assert forall i :: 1 <= i < |s| ==> s[i] == s[1..][i - 1];
      }
    }
  }

  /** The decimal digits of `n`, most significant first (`String(n)`). */
  function DecimalString(n: nat): (r: string)
    ensures |r| >= 1
    ensures forall i :: 0 <= i < |r| ==> '0' <= r[i] <= '9'
    ensures DecimalValue(r) == n
    decreases n
  {
    var d := [(('0' as int) + n % 10) as char];
    if n < 10 then d else DecimalString(n / 10) + d
  }

  /** The number a string of decimal digits denotes. */
  function DecimalValue(s: string): nat
    decreases |s|
  {
    if s == [] then 0
    else
      var c := s[|s| - 1];
      var digit := if '0' <= c <= '9' then c as int - '0' as int else 0;
      DecimalValue(s[..|s| - 1]) * 10 + digit
  }

  /** `guest_${Math.random().toString(36).substring(2)}_${Date.now()}`:
      the record id both guest stores generate, with the random digits and
      the clock reading passed in. */
  function GuestRecordId(randomDigits: string, nowMs: nat): (id: string)
    ensures |id| > 7 + |randomDigits|
    ensures id[..6] == "guest_"
    ensures id[6..6 + |randomDigits|] == randomDigits
    ensures id[6 + |randomDigits|] == '_'
    ensures DecimalValue(id[7 + |randomDigits|..]) == nowMs
  {
    var id := "guest_" + randomDigits + "_" + DecimalString(nowMs);
    assert id[7 + |randomDigits|..] == DecimalString(nowMs);
    id
  }
}
