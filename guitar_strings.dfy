/** The six reference strings and the nearest-string lookup (findClosestString in script.js). */
module GuitarStrings {
  import opened Numbers

  datatype GuitarString = GuitarString(note: string, freq: real)

  /** Standard tuning E A D G B e, in Hz (script.js:15-22). */
  const Strings: seq<GuitarString> := [
    GuitarString("E", 82.41),
    GuitarString("A", 110.00),
    GuitarString("D", 146.83),
    GuitarString("G", 196.00),
    GuitarString("B", 246.94),
    GuitarString("e", 329.63)
  ]

  function Distance(freq: real, s: GuitarString): real
  {
    Abs(freq - s.freq)
  }

  /** k is the first entry of the table whose distance to freq is the least. */
  ghost predicate IsFirstClosest(table: seq<GuitarString>, freq: real, k: int)
  {
    0 <= k < |table|
    && (forall i :: 0 <= i < |table| ==> Distance(freq, table[k]) <= Distance(freq, table[i]))
    && (forall i :: 0 <= i < k ==> Distance(freq, table[i]) > Distance(freq, table[k]))
  }

  /** Among the first n entries, the index of the first one nearest to freq. */
  function ClosestAmong(table: seq<GuitarString>, freq: real, n: nat): (k: nat)
    requires 1 <= n <= |table|
    ensures k < n
    ensures forall i :: 0 <= i < n ==> Distance(freq, table[k]) <= Distance(freq, table[i])
    ensures forall i :: 0 <= i < k ==> Distance(freq, table[i]) > Distance(freq, table[k])
  {
    if n == 1 then 0
    else
      var k := ClosestAmong(table, freq, n - 1);
      if Distance(freq, table[n - 1]) < Distance(freq, table[k]) then n - 1 else k
  }

  function Closest(table: seq<GuitarString>, freq: real): nat
    requires |table| >= 1
  {
    ClosestAmong(table, freq, |table|)
  }

  /** The lookup's choice is exactly the first nearest entry: ties go to the earlier string. */
  lemma ClosestIsFirstClosest(table: seq<GuitarString>, freq: real, k: int)
    requires |table| >= 1
    ensures IsFirstClosest(table, freq, k) <==> k == Closest(table, freq)
  {
  }

  /** A string's own frequency maps to that string. */
  lemma ExactFrequencyMapsToItsString(k: nat)
    requires k < |Strings|
    ensures Closest(Strings, Strings[k].freq) == k
  {
    var f := Strings[k].freq;
    var m := Closest(Strings, f);
    assert Distance(f, Strings[k]) == 0.0;
    assert Strings[m].freq == f;
  }

  /** 111 Hz is nearest to the A string. */
  lemma A111IsNearestToA()
    ensures Closest(Strings, 111.0) == 1
  {
    ClosestIsFirstClosest(Strings, 111.0, 1);
  }

  /** The running minimum of script.js:158, which starts at Infinity. */
  datatype Bound = Infinity | Finite(value: real)

  predicate Below(x: real, b: Bound)
  {
    b.Infinity? || x < b.value
  }

  /** The loop of script.js:157-169. */
  method FindClosestString(freq: real) returns (closest: GuitarString)
    ensures closest == Strings[Closest(Strings, freq)]
  {
    var minDiff := Infinity;
    closest := Strings[0];
    ghost var k := 0;
    for i := 0 to |Strings|
      invariant i == 0 ==> minDiff == Infinity && k == 0
      invariant i > 0 ==> k == ClosestAmong(Strings, freq, i) && minDiff == Finite(Distance(freq, Strings[k]))
      invariant k < |Strings| && closest == Strings[k]
    {
      var str := Strings[i];
      var diff := Abs(freq - str.freq);
      if Below(diff, minDiff) {
        minDiff := Finite(diff);
        closest := str;
        k := i;
      }
    }
  }
}
