/** The subdivision calculator: derive catastral keys for the result parcels,
    build blank result parcels from the original, and check that the result
    areas add up to the original area. Every member is a pure function over
    plain records; the failures (a count that is not positive, or one too
    long for an array) are a `Result`. */
module Construction {
  import opened ConstructionTypes
  import Decimal

  /** Absolute tolerance for comparing areas. */
  const DefaultEps: real := 0.000001

  /** The largest length of a JavaScript array, 2^32 - 1 (ECMAScript's
      ArrayCreate refuses anything longer with a RangeError). */
  const MaxArrayLength: int := 0xFFFF_FFFF

  /** A count key derivation accepts: positive, and short enough for an array. */
  predicate ValidCount(count: int) {
    0 < count <= MaxArrayLength
  }

  /** The failure a count that is not valid raises: the count check comes
      first, the array length check second. */
  function CountFailure(count: int): CountError {
    if count <= 0 then InvalidBatchesNumber(count) else InvalidArrayLength(count)
  }

  /** A border with no length and no description. */
  function EmptyBorder(): (b: BorderData)
    ensures b.meters == 0.0 && b.text == ""
  {
    BorderData(0.0, "")
  }

  predicate BordersBlank(b: Batch) {
    b.northData == EmptyBorder() && b.eastData == EmptyBorder() &&
    b.westData == EmptyBorder() && b.southData == EmptyBorder()
  }

  function Abs(x: real): real {
    if x < 0.0 then -x else x
  }

  /** `a` and `b` differ by at most `eps`: `a` lies in the closed interval
      of radius `eps` around `b`. */
  function EqualsWithTolerance(a: real, b: real, eps: real): (r: bool)
    ensures r <==> b - eps <= a <= b + eps
    ensures r == (a - eps <= b <= a + eps)
  {
    Abs(a - b) <= eps
  }

  /* ---------------------------------------------------------------- */
  /* Catastral keys                                                    */
  /* ---------------------------------------------------------------- */

  /** The key of the result parcel with 1-based position `index1Based`:
      the base key, a dash, and the position in decimal. The position can be
      read back from the text after the dash. */
  function BuildResultCatastralKey(baseKey: string, index1Based: nat): (k: string)
    ensures |k| > |baseKey| + 1
    ensures k[..|baseKey|] == baseKey && k[|baseKey|] == '-'
    ensures Decimal.AllDigits(k[|baseKey| + 1..])
    ensures Decimal.Value(k[|baseKey| + 1..]) == index1Based
    ensures k[|baseKey| + 1] == '0' <==> index1Based == 0
    ensures index1Based == 0 ==> |k| == |baseKey| + 2
  {
    var k := baseKey + "-" + Decimal.NatToString(index1Based);
    assert k[|baseKey| + 1..] == Decimal.NatToString(index1Based);
    Decimal.ValueOfNatToString(index1Based);
    k
  }

  /** Two keys built on the same base agree only when their positions do. */
  lemma ResultCatastralKeyInjective(baseKey: string, i: nat, j: nat)
    requires BuildResultCatastralKey(baseKey, i) == BuildResultCatastralKey(baseKey, j)
    ensures i == j
  {
  }

  /** The keys `baseKey-1` .. `baseKey-count`, in that order. A count that is
      not positive is refused, never clamped; so is one too long for an array. */
  function BuildCatastralKeys(baseKey: string, count: int): (r: Result<seq<string>>)
    ensures r.Failure? <==> count <= 0 || count > MaxArrayLength
    ensures count <= 0 ==> r == Failure(InvalidBatchesNumber(count))
    ensures count > MaxArrayLength ==> r == Failure(InvalidArrayLength(count))
    ensures r.Success? ==> |r.value| == count
    ensures r.Success? ==> forall k :: 0 <= k < |r.value| ==>
      r.value[k] == baseKey + "-" + Decimal.NatToString(k + 1)
  {
    if !ValidCount(count) then
      Failure(CountFailure(count))
    else
      Success(seq(count, i requires 0 <= i < count => BuildResultCatastralKey(baseKey, i + 1)))
  }

  /** Within one derivation every key is different from every other. */
  lemma CatastralKeysDistinct(baseKey: string, count: int)
    requires ValidCount(count)
    ensures var keys := BuildCatastralKeys(baseKey, count).value;
      forall i, j :: 0 <= i < j < |keys| ==> keys[i] != keys[j]
  {
    var keys := BuildCatastralKeys(baseKey, count).value;
    forall i, j | 0 <= i < j < |keys|
      ensures keys[i] != keys[j]
    {
      if keys[i] == keys[j] {
        ResultCatastralKeyInjective(baseKey, i + 1, j + 1);
      }
    }
  }

  /** Every derived key starts with the base key and a dash, and the text
      after the dash reads back as the key's 1-based position. */
  lemma CatastralKeyPosition(baseKey: string, count: int, k: nat)
    requires ValidCount(count) && k < count
    ensures var key := BuildCatastralKeys(baseKey, count).value[k];
      key[..|baseKey| + 1] == baseKey + "-" &&
      Decimal.AllDigits(key[|baseKey| + 1..]) &&
      Decimal.Value(key[|baseKey| + 1..]) == k + 1
  {
    var key := BuildCatastralKeys(baseKey, count).value[k];
    assert key == BuildResultCatastralKey(baseKey, k + 1);
  }

  /* ---------------------------------------------------------------- */
  /* Areas                                                             */
  /* ---------------------------------------------------------------- */

  /** The total area, accumulated from the first parcel to the last. Parcels
      whose areas are all non-negative have a non-negative total. */
  function SumAreas(batches: seq<Batch>): (r: real)
    ensures (forall k :: 0 <= k < |batches| ==> batches[k].area >= 0.0) ==> r >= 0.0
  {
    if batches == [] then 0.0
    else SumAreas(batches[..|batches| - 1]) + batches[|batches| - 1].area
  }

  lemma {:induction false} SumAreasAppend(a: seq<Batch>, b: seq<Batch>)
    ensures SumAreas(a + b) == SumAreas(a) + SumAreas(b)
    decreases |b|
  {
    if b == [] {
      assert a + b == a;
    } else {
      var c := a + b;
      assert c[..|c| - 1] == a + b[..|b| - 1];
      SumAreasAppend(a, b[..|b| - 1]);
    }
  }

  /** Taking one parcel out of the list takes its area out of the total. */
  lemma SumAreasRemove(b: seq<Batch>, j: nat)
    requires j < |b|
    ensures SumAreas(b) == SumAreas(b[..j] + b[j + 1..]) + b[j].area
  {
    var left, right := b[..j], b[j + 1..];
    var withX := b[..j + 1];
    assert b == withX + right;
    calc {
      SumAreas(b);
      { SumAreasAppend(withX, right); }
      SumAreas(withX) + SumAreas(right);
      { assert withX[..j] == left; }
      SumAreas(left) + b[j].area + SumAreas(right);
      { SumAreasAppend(left, right); }
      SumAreas(left + right) + b[j].area;
    }
  }

  lemma MultisetRemoveOne(s: seq<Batch>, j: nat)
    requires j < |s|
    ensures multiset(s[..j] + s[j + 1..]) == multiset(s) - multiset{s[j]}
  {
    assert s == s[..j] + [s[j]] + s[j + 1..];
  }

  /** The total does not depend on the order of the parcels. */
  lemma {:induction false} SumAreasPermutation(a: seq<Batch>, b: seq<Batch>)
    requires multiset(a) == multiset(b)
    ensures SumAreas(a) == SumAreas(b)
    decreases |a|
  {
    if a == [] {
      assert |b| == |multiset(b)| == 0;
    } else {
      var x := a[|a| - 1];
      var a' := a[..|a| - 1];
      assert x in multiset(b);
      var j :| 0 <= j < |b| && b[j] == x;
      var b' := b[..j] + b[j + 1..];
      assert multiset(a') == multiset(b') by {
        MultisetRemoveOne(a, |a| - 1);
        MultisetRemoveOne(b, j);
      }
      SumAreasPermutation(a', b');
      SumAreasRemove(b, j);
    }
  }

  /** Parcels that all have area 0 add up to 0. */
  lemma {:induction false} SumAreasOfZeros(batches: seq<Batch>)
    requires forall k :: 0 <= k < |batches| ==> batches[k].area == 0.0
    ensures SumAreas(batches) == 0.0
    decreases |batches|
  {
    if batches != [] {
      SumAreasOfZeros(batches[..|batches| - 1]);
    }
  }

  /** The result of comparing the summed result areas with the original. */
  datatype AreaValidation =
    | AreasOk
    | AreasMismatch(expected: real, got: real, diff: real)

  /** Ok exactly when the summed areas are within the tolerance of the
      original area; otherwise the original area, the sum, and the signed
      difference (positive when the results are too large). */
  function ValidateAreasMatch(originalArea: real, resultBatches: seq<Batch>): (r: AreaValidation)
    ensures r.AreasOk? <==>
      originalArea - DefaultEps <= SumAreas(resultBatches) <= originalArea + DefaultEps
    ensures r.AreasMismatch? ==>
      r.expected == originalArea && r.got == SumAreas(resultBatches) &&
      r.got == r.expected + r.diff && (r.diff > DefaultEps || r.diff < -DefaultEps)
  {
    var expected := originalArea;
    var got := SumAreas(resultBatches);
    var diff := got - expected;
    if EqualsWithTolerance(got, expected, DefaultEps) then AreasOk
    else AreasMismatch(expected, got, diff)
  }

  /** Reordering the result parcels does not change the verdict. */
  lemma ValidateAreasMatchPermutation(originalArea: real, a: seq<Batch>, b: seq<Batch>)
    requires multiset(a) == multiset(b)
    ensures ValidateAreasMatch(originalArea, a) == ValidateAreasMatch(originalArea, b)
  {
    SumAreasPermutation(a, b);
  }

  /** Worked cases: 60 + 40 against 100 is ok; 60 + 39.9999995 is within
      the tolerance; 60 + 39 is short by 1. */
  lemma ReconciliationExamples(b: Batch)
    ensures ValidateAreasMatch(100.0, [b.(area := 60.0), b.(area := 40.0)]) == AreasOk
    ensures ValidateAreasMatch(100.0, [b.(area := 60.0), b.(area := 39.9999995)]) == AreasOk
    ensures ValidateAreasMatch(100.0, [b.(area := 60.0), b.(area := 39.0)]) ==
      AreasMismatch(100.0, 99.0, -1.0)
  {
    var p, q, r, s := b.(area := 60.0), b.(area := 40.0), b.(area := 39.9999995), b.(area := 39.0);
    assert [p, q][..1] == [p] && [p, r][..1] == [p] && [p, s][..1] == [p];
    assert [p][..0] == [];
    assert SumAreas([p]) == 60.0;
    assert SumAreas([p, q]) == 100.0;
    assert SumAreas([p, r]) == 99.9999995;
    assert SumAreas([p, s]) == 99.0;
  }

  /* ---------------------------------------------------------------- */
  /* Result parcels                                                    */
  /* ---------------------------------------------------------------- */

  /** `b` is a blank result parcel at `address` with key `key`: four empty
      borders and no area. */
  predicate IsBlankResult(b: Batch, address: string, key: string) {
    b.address == address && BordersBlank(b) && b.catastralKey == key && b.area == 0.0
  }

  /** A blank result parcel carrying the original's address and the given key. */
  function CreateResultBatchFromOriginal(original: Batch, cadastralKey: string): (b: Batch)
    ensures IsBlankResult(b, original.address, cadastralKey)
  {
    Batch(original.address, EmptyBorder(), EmptyBorder(), EmptyBorder(), EmptyBorder(),
          cadastralKey, 0.0)
  }

  /** Of the original parcel only the address is carried over: its borders,
      key and area do not affect the result parcel. */
  lemma ResultBatchUsesOnlyAddress(o1: Batch, o2: Batch, key: string)
    requires o1.address == o2.address
    ensures CreateResultBatchFromOriginal(o1, key) == CreateResultBatchFromOriginal(o2, key)
  {
  }

  /** `batchesNumber` blank result parcels, the k-th (0-based) carrying the
      original's address and key `{original key}-{k+1}`; a count that is not
      valid fails as key derivation does. */
  function BuildResultBatches(original: Batch, batchesNumber: int): (r: Result<seq<Batch>>)
    ensures r.Failure? <==> !ValidCount(batchesNumber)
    ensures r.Failure? ==> r.error == CountFailure(batchesNumber)
    ensures r.Success? ==> |r.value| == batchesNumber
    ensures r.Success? ==> forall k :: 0 <= k < |r.value| ==>
      IsBlankResult(r.value[k], original.address,
                    original.catastralKey + "-" + Decimal.NatToString(k + 1))
  {
    match BuildCatastralKeys(original.catastralKey, batchesNumber)
    case Failure(e) => Failure(e)
    case Success(keys) =>
      Success(seq(|keys|, i requires 0 <= i < |keys| =>
        CreateResultBatchFromOriginal(original, keys[i])))
  }

  /** The result parcels have pairwise distinct keys. */
  lemma ResultBatchKeysDistinct(original: Batch, batchesNumber: int)
    requires ValidCount(batchesNumber)
    ensures var rs := BuildResultBatches(original, batchesNumber).value;
      forall i, j :: 0 <= i < j < |rs| ==> rs[i].catastralKey != rs[j].catastralKey
  {
    var rs := BuildResultBatches(original, batchesNumber).value;
    var keys := BuildCatastralKeys(original.catastralKey, batchesNumber).value;
    CatastralKeysDistinct(original.catastralKey, batchesNumber);
    forall i, j | 0 <= i < j < |rs|
      ensures rs[i].catastralKey != rs[j].catastralKey
    {
      assert rs[i].catastralKey == keys[i] && rs[j].catastralKey == keys[j];
    }
  }

  /** Freshly built result parcels add up to 0. */
  lemma ResultBatchesAreaZero(original: Batch, batchesNumber: int)
    requires ValidCount(batchesNumber)
    ensures SumAreas(BuildResultBatches(original, batchesNumber).value) == 0.0
  {
    SumAreasOfZeros(BuildResultBatches(original, batchesNumber).value);
  }

  /** So an original area beyond the tolerance is reported as a mismatch
      right after the parcels are built, with nothing counted yet. */
  lemma FreshResultBatchesMismatch(original: Batch, batchesNumber: int)
    requires ValidCount(batchesNumber)
    requires original.area > DefaultEps || original.area < -DefaultEps
    ensures ValidateAreasMatch(original.area, BuildResultBatches(original, batchesNumber).value)
      == AreasMismatch(original.area, 0.0, -original.area)
  {
    ResultBatchesAreaZero(original, batchesNumber);
  }

  /** The worked subdivision: three parcels from key ABC-123 and area 500. */
  lemma SubdivisionExample(original: Batch)
    requires original.catastralKey == "ABC-123" && original.area == 500.0
    ensures BuildCatastralKeys("ABC-123", 3) == Success(["ABC-123-1", "ABC-123-2", "ABC-123-3"])
    ensures ValidateAreasMatch(500.0, BuildResultBatches(original, 3).value)
      == AreasMismatch(500.0, 0.0, -500.0)
  {
    var keys := BuildCatastralKeys("ABC-123", 3).value;
    assert Decimal.NatToString(1) == "1" && Decimal.NatToString(2) == "2" && Decimal.NatToString(3) == "3";
    assert keys[0] == "ABC-123-1" && keys[1] == "ABC-123-2" && keys[2] == "ABC-123-3";
    assert keys == ["ABC-123-1", "ABC-123-2", "ABC-123-3"];
    FreshResultBatchesMismatch(original, 3);
  }

  /* ---------------------------------------------------------------- */
  /* Form orchestration                                                */
  /* ---------------------------------------------------------------- */

  /** The form with a new count and freshly built result parcels; folium,
      date and original parcel are kept. A count that is not valid fails. */
  function ApplyBatchesNumber(form: ConstructionForm, batchesNumber: int): (r: Result<ConstructionForm>)
    ensures r.Failure? <==> !ValidCount(batchesNumber)
    ensures r.Failure? ==> r.error == CountFailure(batchesNumber)
    ensures r.Success? ==>
      r.value.folium == form.folium && r.value.date == form.date &&
      r.value.originalBatch == form.originalBatch &&
      r.value.batchesNumber == batchesNumber &&
      r.value.resultBatches == BuildResultBatches(form.originalBatch, batchesNumber).value
  {
    match BuildResultBatches(form.originalBatch, batchesNumber)
    case Failure(e) => Failure(e)
    case Success(resultBatches) =>
      Success(form.(batchesNumber := batchesNumber, resultBatches := resultBatches))
  }

  /** Regeneration discards what the form held before: two forms that differ
      only in their count and result parcels give the same new form. */
  lemma ApplyBatchesNumberDiscardsResults(f1: ConstructionForm, f2: ConstructionForm, n: int)
    requires f1.folium == f2.folium && f1.date == f2.date && f1.originalBatch == f2.originalBatch
    ensures ApplyBatchesNumber(f1, n) == ApplyBatchesNumber(f2, n)
  {
  }

  /** Applying the same count twice is the same as applying it once. */
  lemma ApplyBatchesNumberIdempotent(form: ConstructionForm, n: int)
    requires ValidCount(n)
    ensures ApplyBatchesNumber(ApplyBatchesNumber(form, n).value, n) == ApplyBatchesNumber(form, n)
  {
    ApplyBatchesNumberDiscardsResults(ApplyBatchesNumber(form, n).value, form, n);
  }

  /** The area check of a form: its result parcels against its original
      parcel's area. */
  function ValidateConstructionForm(form: ConstructionForm): (r: AreaValidation)
    ensures r.AreasOk? <==>
      Abs(SumAreas(form.resultBatches) - form.originalBatch.area) <= DefaultEps
    ensures r.AreasMismatch? ==>
      r.expected == form.originalBatch.area && r.got == SumAreas(form.resultBatches) &&
      r.diff == r.got - r.expected
  {
    ValidateAreasMatch(form.originalBatch.area, form.resultBatches)
  }
}
