/**
 * The section index beside every long list: `sectionCount` markers, each a
 * short label and the list entry (or list position) a tap scrolls to.
 */
module SectionIndex {
  import opened Text

  /** `sectionCount`: "a magic number chosen aesthetically". */
  const SectionCount: nat := 15

  /** One `(label: String, id: ...)` pair of `sectionMarkers`; `text` is the label. */
  datatype Marker<Id> = Marker(text: string, id: Id)

  /**
   * The list positions the markers point at: none for a list shorter than
   * twice `sectionCount`, otherwise marker `k` at `k * (n / sectionCount)`.
   */
  function MarkerPositions(n: nat): seq<nat> {
    if n < SectionCount * 2 then [] else seq(SectionCount, k => k * (n / SectionCount))
  }

  /** Consecutive multiples of `size` lie `size` apart. */
  lemma NextMultiple(k: nat, size: nat)
    ensures (k + 1) * size == k * size + size
  {
  }

  /** Multiples of a positive `size` grow with the multiplier. */
  lemma {:induction false} MultiplesIncrease(k: nat, l: nat, size: nat)
    requires k < l && size > 0
    ensures k * size < l * size
  {
    NextMultiple(l - 1, size);
    if k < l - 1 {
      MultiplesIncrease(k, l - 1, size);
    }
  }

  /** For a list of at least 30 entries, position `k` of 15 is an index of the list. */
  lemma PositionInBounds(n: nat, k: nat)
    requires n >= SectionCount * 2 && k < SectionCount
    ensures k * (n / SectionCount) < n
  {
    var size := n / SectionCount;
    assert n == SectionCount * size + n % SectionCount;
    if k < SectionCount - 1 {
      MultiplesIncrease(k, SectionCount - 1, size);
    }
    NextMultiple(SectionCount - 1, size);
  }

  /**
   * The markers of a list of `n` entries: none below 30 entries, otherwise
   * exactly 15, the first at the top of the list, each at a valid index, evenly
   * spaced `n / 15` (at least 2) apart and so strictly increasing.
   */
  lemma MarkerPositionsSpread(n: nat)
    ensures var ps := MarkerPositions(n);
      && (ps == [] <==> n < SectionCount * 2)
      && (n >= SectionCount * 2 ==> |ps| == SectionCount && ps[0] == 0)
      && (forall k :: 0 <= k < |ps| ==> ps[k] < n)
      && (n >= SectionCount * 2 ==> n / SectionCount >= 2)
      && (forall k, l :: 0 <= k < l < |ps| && l == k + 1 ==> ps[l] - ps[k] == n / SectionCount)
      && (forall k, l :: 0 <= k < l < |ps| ==> ps[k] < ps[l])
  {
    var ps := MarkerPositions(n);
    if n >= SectionCount * 2 {
      var size := n / SectionCount;
      forall k | 0 <= k < |ps| ensures ps[k] < n {
        PositionInBounds(n, k);
      }
      forall k, l | 0 <= k < l < |ps| && l == k + 1 ensures ps[l] - ps[k] == size {
        NextMultiple(k, size);
      }
      forall k, l | 0 <= k < l < |ps| ensures ps[k] < ps[l] {
        MultiplesIncrease(k, l, size);
      }
    }
  }

  /**
   * The first `|markers|` markers of the list `xs`: each labels and points at
   * the entry at its marker position.
   */
  predicate MarkersSoFar<T(==)>(markers: seq<Marker<T>>, xs: seq<T>, labelOf: T -> string, width: nat) {
    var ps := MarkerPositions(|xs|);
    && |markers| <= |ps|
    && forall k :: 0 <= k < |markers| ==>
         ps[k] < |xs| && markers[k] == Marker(Prefix(labelOf(xs[ps[k]]), width), xs[ps[k]])
  }

  /** `markers` label and point at the entries of `xs` at all the marker positions. */
  predicate MarkersFor<T(==)>(markers: seq<Marker<T>>, xs: seq<T>, labelOf: T -> string, width: nat) {
    |markers| == |MarkerPositions(|xs|)| && MarkersSoFar(markers, xs, labelOf, width)
  }

  /** The next marker is the entry `i * (n / 15)` with its label. */
  lemma MarkersSoFarAppend<T>(markers: seq<Marker<T>>, xs: seq<T>, labelOf: T -> string, width: nat)
    requires MarkersSoFar(markers, xs, labelOf, width)
    requires |xs| >= SectionCount * 2 && |markers| < SectionCount
    ensures var p := |markers| * (|xs| / SectionCount);
      && p < |xs|
      && MarkersSoFar(markers + [Marker(Prefix(labelOf(xs[p]), width), xs[p])], xs, labelOf, width)
  {
    PositionInBounds(|xs|, |markers|);
  }

  /** As `MarkersSoFar`, but each marker holds the position itself rather than the entry. */
  predicate IndexMarkersSoFar<T>(markers: seq<Marker<int>>, xs: seq<T>, labelOf: T -> string, width: nat) {
    var ps := MarkerPositions(|xs|);
    && |markers| <= |ps|
    && forall k :: 0 <= k < |markers| ==>
         ps[k] < |xs| && markers[k] == Marker(Prefix(labelOf(xs[ps[k]]), width), ps[k])
  }

  /** As `MarkersFor`, but each marker holds the position itself rather than the entry. */
  predicate IndexMarkersFor<T>(markers: seq<Marker<int>>, xs: seq<T>, labelOf: T -> string, width: nat) {
    |markers| == |MarkerPositions(|xs|)| && IndexMarkersSoFar(markers, xs, labelOf, width)
  }

  /** The next index marker is position `i * (n / 15)` with its entry's label. */
  lemma IndexMarkersSoFarAppend<T>(markers: seq<Marker<int>>, xs: seq<T>, labelOf: T -> string, width: nat)
    requires IndexMarkersSoFar(markers, xs, labelOf, width)
    requires |xs| >= SectionCount * 2 && |markers| < SectionCount
    ensures var p := |markers| * (|xs| / SectionCount);
      && p < |xs|
      && IndexMarkersSoFar(markers + [Marker(Prefix(labelOf(xs[p]), width), p)], xs, labelOf, width)
  {
    PositionInBounds(|xs|, |markers|);
  }
}
