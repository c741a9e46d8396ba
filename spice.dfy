/**
 * The SPICE captioning-metric wrapper.
 *
 * `ComputeScore` checks that the candidate and reference batches are aligned,
 * builds one input record per sample whose image id is the sample's position,
 * hands the records to the external SPICE scorer, and then re-associates the
 * scorer's per-image results with the input order through a table keyed by
 * image id.  Every score leaf goes through the total conversion
 * `FloatConvert`, and the aggregate is the mean of the "All"/"f" leaf over the
 * scorer's result items.
 *
 * The scorer (a Java process reading and writing JSON files) is a parameter
 * `tool`: it maps the input records to the parsed result items, or to None
 * when the process exits with a non-zero status.  Python's `float(str)` is the
 * parameter `parse`.  A numeric None stands for NaN throughout.
 */
module Spice {
  import opened Wrappers

  /** One sample of a batch: a Python list of captions, or any other value. */
  datatype CaptionList = Captions(items: seq<string>) | NotAList

  /** A leaf of the scorer's JSON output. */
  datatype Leaf =
    | Number(value: real)
    | Boolean(flag: bool)
    | Null
    | Text(text: string)
    | Composite  // a JSON array or object

  /** Metric name to leaf, e.g. "pr", "re", "f". */
  type Metrics = map<string, Leaf>
  /** Category name ("All", "Object", ...) to its metrics. */
  type ScoreSet = map<string, Metrics>
  /** A score set after every leaf went through FloatConvert. */
  type ConvertedSet = map<string, map<string, Option<real>>>

  /** One element of the scorer's input file. */
  datatype InputRecord = InputRecord(imageId: int, tests: seq<string>, refs: seq<string>)

  /** One element of the scorer's output file. */
  datatype ResultItem = ResultItem(imageId: int, scores: ScoreSet)

  /** The exceptions `compute_score` can raise. */
  datatype ScoreError =
    | LengthMismatch             // assert len(gts) == len(res)
    | InvalidSample(index: nat)  // a sample that is not a non-empty list
    | ToolFailed                 // non-zero exit of the scorer
    | MissingAllF(position: nat) // result item without scores["All"]["f"]
    | MissingResult(imageId: int) // no result item for an input image id

  /** What `compute_score` returns: the aggregate and the per-sample score sets. */
  datatype Scored = Scored(average: Option<real>, perSample: seq<ConvertedSet>)

  /** The name of the metric this scorer computes. */
  function MethodName(): (name: string)
    ensures name == "SPICE"
  {
    "SPICE"
  }

  /**
   * `float(obj)` with every exception mapped to NaN: it never fails.
   * Numbers convert to themselves, booleans to 1 and 0, strings as `parse`
   * reads them, and null, arrays and objects to NaN.
   */
  function FloatConvert(leaf: Leaf, parse: string -> Option<real>): (r: Option<real>)
    ensures leaf.Number? ==> r == Some(leaf.value)
    ensures leaf.Boolean? ==> r == Some(if leaf.flag then 1.0 else 0.0)
    ensures leaf.Text? ==> r == parse(leaf.text)
    ensures leaf.Null? || leaf.Composite? ==> r == None
  {
    match leaf
    case Number(x) => Some(x)
    case Boolean(b) => Some(if b then 1.0 else 0.0)
    case Text(s) => parse(s)
    case Null => None
    case Composite => None
  }

  // ---------------------------------------------------------------------
  // Input validation and the scorer's input records
  // ---------------------------------------------------------------------

  /** A sample passes the sanity check: a list with at least one caption. */
  predicate WellFormed(c: CaptionList)
  {
    c.Captions? && |c.items| >= 1
  }

  /** Sample `i` exists in both batches and both its lists pass the sanity check. */
  predicate PairOk(gts: seq<CaptionList>, res: seq<CaptionList>, i: int)
  {
    0 <= i < |gts| && i < |res| && WellFormed(res[i]) && WellFormed(gts[i])
  }

  /** The batches are aligned and every sample passes the sanity check. */
  predicate Aligned(gts: seq<CaptionList>, res: seq<CaptionList>)
  {
    |gts| == |res| && forall i :: 0 <= i < |res| ==> PairOk(gts, res, i)
  }

  /** `k` is the first sample that fails the sanity check. */
  ghost predicate FirstInvalid(gts: seq<CaptionList>, res: seq<CaptionList>, k: int)
  {
    0 <= k < |res| && !PairOk(gts, res, k) && forall j :: 0 <= j < k ==> PairOk(gts, res, j)
  }

  /** The records written to the scorer's input file: image id = position. */
  function InputRecords(gts: seq<CaptionList>, res: seq<CaptionList>): seq<InputRecord>
    requires Aligned(gts, res)
  {
    seq(|res|, i requires 0 <= i < |res| && PairOk(gts, res, i) => InputRecord(i, res[i].items, gts[i].items))
  }

  /** The image ids 0, 1, ..., n - 1 in order. */
  function Ids(n: nat): seq<int>
  {
    seq(n, i => i)
  }

  /**
   * The first loop of `compute_score`: sanity-check each sample and build the
   * input records and the list of image ids, both in index order.
   */
  method BuildInput(gts: seq<CaptionList>, res: seq<CaptionList>)
    returns (r: Result<(seq<InputRecord>, seq<int>), ScoreError>)
    requires |gts| == |res|
    ensures r.Success? <==> Aligned(gts, res)
    ensures r.Success? ==> |r.value.0| == |res| && r.value.1 == Ids(|res|)
    ensures r.Success? ==> forall i :: PairOk(gts, res, i) ==>
              r.value.0[i] == InputRecord(i, res[i].items, gts[i].items)
    ensures r.Success? ==> r.value.0 == InputRecords(gts, res)
    ensures r.Failure? ==> r.error.InvalidSample? && FirstInvalid(gts, res, r.error.index)
  {
    var inputData: seq<InputRecord> := [];
    var imgIds: seq<int> := [];
    var id := 0;
    while id < |res|
      invariant 0 <= id <= |res|
      invariant |inputData| == id && imgIds == Ids(id)
      invariant forall j :: 0 <= j < id ==>
                  PairOk(gts, res, j) && inputData[j] == InputRecord(j, res[j].items, gts[j].items)
    {
      var hypo, ref := res[id], gts[id];
      if !WellFormed(hypo) || !WellFormed(ref) {
        assert !PairOk(gts, res, id);
        return Failure(InvalidSample(id));
      }
      inputData := inputData + [InputRecord(id, hypo.items, ref.items)];
      imgIds := imgIds + [id];
      id := id + 1;
    }
    r := Success((inputData, imgIds));
  }

  // ---------------------------------------------------------------------
  // Re-association of the scorer's results with the input order
  // ---------------------------------------------------------------------

  /** The result item carries the aggregate leaf scores["All"]["f"]. */
  predicate HasAllF(item: ResultItem)
  {
    "All" in item.scores && "f" in item.scores["All"]
  }

  /** `k` is the first result item without the aggregate leaf. */
  ghost predicate FirstWithoutAllF(results: seq<ResultItem>, k: int)
  {
    0 <= k < |results| && !HasAllF(results[k]) && forall j :: 0 <= j < k ==> HasAllF(results[j])
  }

  /** The converted aggregate leaf of one result item. */
  function AllF(item: ResultItem, parse: string -> Option<real>): Option<real>
    requires HasAllF(item)
  {
    FloatConvert(item.scores["All"]["f"], parse)
  }

  /** The aggregate leaf of every result item, in result order. */
  function AllFValues(results: seq<ResultItem>, parse: string -> Option<real>): (values: seq<Option<real>>)
    requires forall i :: 0 <= i < |results| ==> HasAllF(results[i])
    ensures |values| == |results|
    ensures forall i :: 0 <= i < |results| ==>
              HasAllF(results[i]) && values[i] == FloatConvert(results[i].scores["All"]["f"], parse)
  {
    seq(|results|, i requires 0 <= i < |results| && HasAllF(results[i]) => AllF(results[i], parse))
  }

  /**
   * The dictionary from image id to scores filled by walking the results in
   * order; a later item with the same id overwrites an earlier one.
   */
  function IdTable(results: seq<ResultItem>): (table: map<int, ScoreSet>)
    ensures forall id :: id in table <==> exists i :: 0 <= i < |results| && results[i].imageId == id
    decreases |results|
  {
    if results == [] then map[]
    else
      var last := results[|results| - 1];
      IdTable(results[..|results| - 1])[last.imageId := last.scores]
  }

  /** The image id `id` is the first one in `imgIds` that has no result item. */
  ghost predicate FirstMissingId(table: map<int, ScoreSet>, imgIds: seq<int>, id: int)
  {
    exists j :: 0 <= j < |imgIds| && imgIds[j] == id && id !in table &&
      forall l :: 0 <= l < j ==> imgIds[l] in table
  }

  /** Every metric of every category went through FloatConvert, and no key changed. */
  ghost predicate ConvertedFrom(c: ConvertedSet, s: ScoreSet, parse: string -> Option<real>)
  {
    && c.Keys == s.Keys
    && forall cat :: cat in s ==>
         && c[cat].Keys == s[cat].Keys
         && forall m :: m in s[cat] ==> c[cat][m] == FloatConvert(s[cat][m], parse)
  }

  /**
   * What the second half of `compute_score` produces from the scorer's
   * results: the first item without an aggregate leaf aborts; otherwise the
   * first requested id without a result aborts; otherwise the mean of the
   * aggregate leaves and one converted score set per requested id.
   */
  ghost predicate Reassociated(results: seq<ResultItem>, imgIds: seq<int>,
                               parse: string -> Option<real>, out: Result<Scored, ScoreError>)
  {
    if exists k :: 0 <= k < |results| && !HasAllF(results[k]) then
      out.Failure? && out.error.MissingAllF? && FirstWithoutAllF(results, out.error.position)
    else if exists j :: 0 <= j < |imgIds| && imgIds[j] !in IdTable(results) then
      out.Failure? && out.error.MissingResult? && FirstMissingId(IdTable(results), imgIds, out.error.imageId)
    else
      && out.Success?
      && out.value.average == Mean(AllFValues(results, parse))
      && |out.value.perSample| == |imgIds|
      && forall j :: 0 <= j < |imgIds| ==>
           ConvertedFrom(out.value.perSample[j], IdTable(results)[imgIds[j]], parse)
  }

  /** The dictionary comprehension that converts one category's metrics. */
  function ConvertMetrics(m: Metrics, parse: string -> Option<real>): (c: map<string, Option<real>>)
    ensures c.Keys == m.Keys
    ensures forall k :: k in m ==> c[k] == FloatConvert(m[k], parse)
  {
    map k | k in m :: FloatConvert(m[k], parse)
  }

  /** The loop over the categories of one sample's score set. */
  method ConvertCategories(s: ScoreSet, parse: string -> Option<real>) returns (c: ConvertedSet)
    ensures ConvertedFrom(c, s, parse)
  {
    c := map[];
    var remaining := s.Keys;
    while remaining != {}
      invariant remaining <= s.Keys
      invariant c.Keys == s.Keys - remaining
      invariant forall cat :: cat in c ==> c[cat] == ConvertMetrics(s[cat], parse)
      decreases remaining
    {
      var cat :| cat in remaining;
      c := c[cat := ConvertMetrics(s[cat], parse)];
      remaining := remaining - {cat};
    }
  }

  /** One more result item appends its converted aggregate leaf. */
  lemma AllFValuesExtend(results: seq<ResultItem>, k: nat, parse: string -> Option<real>)
    requires k < |results|
    requires forall i :: 0 <= i <= k ==> HasAllF(results[i])
    ensures AllFValues(results[..k + 1], parse) == AllFValues(results[..k], parse) + [AllF(results[k], parse)]
  {
    var longer := AllFValues(results[..k + 1], parse);
    var shorter := AllFValues(results[..k], parse);
    assert forall i :: 0 <= i < k ==> longer[i] == shorter[i];
  }

  /**
   * The loop over the scorer's results: fill the id table (a later item with
   * an id already seen overwrites it) and collect the aggregate leaves.
   */
  method CollectResults(results: seq<ResultItem>, parse: string -> Option<real>)
    returns (r: Result<(map<int, ScoreSet>, seq<Option<real>>), ScoreError>)
    ensures r.Success? <==> forall k :: 0 <= k < |results| ==> HasAllF(results[k])
    ensures r.Success? ==> r.value.0 == IdTable(results) && r.value.1 == AllFValues(results, parse)
    ensures r.Failure? ==> r.error.MissingAllF? && FirstWithoutAllF(results, r.error.position)
  {
    var idToScores: map<int, ScoreSet> := map[];
    var spiceScores: seq<Option<real>> := [];
    var k := 0;
    while k < |results|
      invariant 0 <= k <= |results|
      invariant forall i :: 0 <= i < k ==> HasAllF(results[i])
      invariant idToScores == IdTable(results[..k])
      invariant spiceScores == AllFValues(results[..k], parse)
    {
      var item := results[k];
      assert results[..k + 1][..k] == results[..k];
      idToScores := idToScores[item.imageId := item.scores];
      if !HasAllF(item) {
        return Failure(MissingAllF(k));
      }
      AllFValuesExtend(results, k, parse);
      spiceScores := spiceScores + [AllF(item, parse)];
      k := k + 1;
    }
    assert results[..k] == results;
    r := Success((idToScores, spiceScores));
  }

  /**
   * The loop over the input image ids: look each id up in the table and
   * convert its score set, in input order.
   */
  method LookUpAll(table: map<int, ScoreSet>, imgIds: seq<int>, parse: string -> Option<real>)
    returns (r: Result<seq<ConvertedSet>, ScoreError>)
    ensures r.Success? <==> forall j :: 0 <= j < |imgIds| ==> imgIds[j] in table
    ensures r.Success? ==> |r.value| == |imgIds|
    ensures r.Success? ==> forall j :: 0 <= j < |imgIds| ==>
              imgIds[j] in table && ConvertedFrom(r.value[j], table[imgIds[j]], parse)
    ensures r.Failure? ==> r.error.MissingResult? && FirstMissingId(table, imgIds, r.error.imageId)
  {
    var scores: seq<ConvertedSet> := [];
    var j := 0;
    while j < |imgIds|
      invariant 0 <= j <= |imgIds|
      invariant |scores| == j
      invariant forall l :: 0 <= l < j ==>
                  imgIds[l] in table && ConvertedFrom(scores[l], table[imgIds[l]], parse)
    {
      var id := imgIds[j];
      if id !in table {
        assert FirstMissingId(table, imgIds, id) by {
          assert 0 <= j < |imgIds| && imgIds[j] == id && id !in table;
        }
        return Failure(MissingResult(id));
      }
      var converted := ConvertCategories(table[id], parse);
      scores := scores + [converted];
      j := j + 1;
    }
    r := Success(scores);
  }

  /** The second half of `compute_score`, from the scorer's results to its return value. */
  method Reassociate(results: seq<ResultItem>, imgIds: seq<int>, parse: string -> Option<real>)
    returns (out: Result<Scored, ScoreError>)
    ensures Reassociated(results, imgIds, parse, out)
  {
    var collected := CollectResults(results, parse);
    if collected.Failure? {
      return Failure(collected.error);
    }
    var idToScores, spiceScores := collected.value.0, collected.value.1;
    var average := Mean(spiceScores);
    var scores := LookUpAll(idToScores, imgIds, parse);
    if scores.Failure? {
      return Failure(scores.error);
    }
    out := Success(Scored(average, scores.value));
  }

  /**
   * `compute_score(gts, res)`: the whole call, with the scorer as `tool`.
   * A misaligned batch is rejected before the scorer is consulted.
   */
  method ComputeScore(gts: seq<CaptionList>, res: seq<CaptionList>,
                      tool: seq<InputRecord> -> Option<seq<ResultItem>>,
                      parse: string -> Option<real>)
    returns (out: Result<Scored, ScoreError>)
    ensures |gts| != |res| ==> out == Failure(LengthMismatch)
    ensures |gts| == |res| && !Aligned(gts, res) ==>
              out.Failure? && out.error.InvalidSample? && FirstInvalid(gts, res, out.error.index)
    ensures Aligned(gts, res) && tool(InputRecords(gts, res)).None? ==> out == Failure(ToolFailed)
    ensures Aligned(gts, res) && tool(InputRecords(gts, res)).Some? ==>
              Reassociated(tool(InputRecords(gts, res)).value, Ids(|res|), parse, out)
  {
    if |gts| != |res| {
      return Failure(LengthMismatch);
    }
    var built := BuildInput(gts, res);
    if built.Failure? {
      return Failure(built.error);
    }
    var inputData, imgIds := built.value.0, built.value.1;
    var outcome := tool(inputData);
    if outcome.None? {
      return Failure(ToolFailed);
    }
    out := Reassociate(outcome.value, imgIds, parse);
  }

  // ---------------------------------------------------------------------
  // Properties of the id table
  // ---------------------------------------------------------------------

  /** When several result items carry the same id, the last of them decides. */
  lemma {:induction false} IdTableLastWins(results: seq<ResultItem>, k: nat)
    requires k < |results|
    requires forall j :: k < j < |results| ==> results[j].imageId != results[k].imageId
    ensures results[k].imageId in IdTable(results)
    ensures IdTable(results)[results[k].imageId] == results[k].scores
    decreases |results|
  {
    if k < |results| - 1 {
      var prefix := results[..|results| - 1];
      IdTableLastWins(prefix, k);
    }
  }

  /** Every entry of the id table comes from some result item with that id. */
  lemma {:induction false} IdTableEntryFrom(results: seq<ResultItem>, id: int)
    requires id in IdTable(results)
    ensures exists i :: 0 <= i < |results| && results[i].imageId == id && IdTable(results)[id] == results[i].scores
    decreases |results|
  {
    var n := |results|;
    var prefix := results[..n - 1];
    var last := results[n - 1];
    assert IdTable(results) == IdTable(prefix)[last.imageId := last.scores];
    if last.imageId == id {
      assert results[n - 1].imageId == id && IdTable(results)[id] == results[n - 1].scores;
    } else {
      assert id in IdTable(prefix);
      IdTableEntryFrom(prefix, id);
      var i :| 0 <= i < |prefix| && prefix[i].imageId == id && IdTable(prefix)[id] == prefix[i].scores;
      assert results[i] == prefix[i];
      assert results[i].imageId == id && IdTable(results)[id] == results[i].scores;
    }
  }

  /** No two result items share an image id. */
  ghost predicate DistinctIds(results: seq<ResultItem>)
  {
    forall i, j :: 0 <= i < j < |results| ==> results[i].imageId != results[j].imageId
  }

  /**
   * With distinct ids, the order in which the scorer returns its items does
   * not matter: any permutation gives the same id table.
   */
  lemma IdTableOrderIndependent(rs1: seq<ResultItem>, rs2: seq<ResultItem>)
    requires multiset(rs1) == multiset(rs2)
    requires DistinctIds(rs1)
    ensures IdTable(rs1) == IdTable(rs2)
  {
    var t1, t2 := IdTable(rs1), IdTable(rs2);
    forall id | id in t2
      ensures id in t1 && t1[id] == t2[id]
    {
      IdTableEntryFrom(rs2, id);
      var i :| 0 <= i < |rs2| && rs2[i].imageId == id && t2[id] == rs2[i].scores;
      assert rs2[i] in multiset(rs1);
      var j :| 0 <= j < |rs1| && rs1[j] == rs2[i];
      IdTableLastWins(rs1, j);
    }
    forall id | id in t1
      ensures id in t2
    {
      var j :| 0 <= j < |rs1| && rs1[j].imageId == id;
      assert rs1[j] in multiset(rs2);
      var i :| 0 <= i < |rs2| && rs2[i] == rs1[j];
    }
  }

  // ---------------------------------------------------------------------
  // The mean with NaN propagation
  // ---------------------------------------------------------------------

  /** The sum of the values; NaN as soon as one of them is NaN. */
  function SumDefined(xs: seq<Option<real>>): (s: Option<real>)
    ensures s.None? <==> None in xs
  {
    if xs == [] then Some(0.0)
    else if xs[0].None? then None
    else
      var rest := SumDefined(xs[1..]);
      assert xs == [xs[0]] + xs[1..];
      if rest.None? then None else Some(xs[0].value + rest.value)
  }

  /**
   * `np.mean`: NaN for an empty list or when any value is NaN, otherwise the
   * arithmetic mean.
   */
  function Mean(xs: seq<Option<real>>): (m: Option<real>)
    ensures m.None? <==> (xs == [] || None in xs)
  {
    if xs == [] then None
    else match SumDefined(xs)
      case None => None
      case Some(s) => Some(s / (|xs| as real))
  }

  /** Bounds on the values bound their sum. */
  lemma {:induction false} SumWithinBounds(xs: seq<Option<real>>, lo: real, hi: real)
    requires forall i :: 0 <= i < |xs| ==> xs[i].Some? && lo <= xs[i].value <= hi
    ensures SumDefined(xs).Some?
    ensures lo * (|xs| as real) <= SumDefined(xs).value <= hi * (|xs| as real)
  {
    if xs != [] {
      SumWithinBounds(xs[1..], lo, hi);
      var n := |xs[1..]| as real;
      assert lo * (n + 1.0) == lo * n + lo;
      assert hi * (n + 1.0) == hi * n + hi;
    }
  }

  /** A sum between n * lo and n * hi, divided by n > 0, lies in [lo, hi]. */
  lemma QuotientWithinBounds(s: real, n: real, lo: real, hi: real)
    requires n > 0.0 && lo * n <= s <= hi * n
    ensures lo <= s / n <= hi
  {
    assert (lo * n) / n == lo && (hi * n) / n == hi;
  }

  /** The mean of values that all lie in [lo, hi] lies in [lo, hi]. */
  lemma MeanWithinBounds(xs: seq<Option<real>>, lo: real, hi: real)
    requires xs != []
    requires forall i :: 0 <= i < |xs| ==> xs[i].Some? && lo <= xs[i].value <= hi
    ensures Mean(xs).Some? && lo <= Mean(xs).value <= hi
  {
    SumWithinBounds(xs, lo, hi);
    QuotientWithinBounds(SumDefined(xs).value, |xs| as real, lo, hi);
  }

  // ---------------------------------------------------------------------
  // Properties of the whole call
  // ---------------------------------------------------------------------

  /** Two score sets converted from the same source are equal. */
  lemma ConvertedFromUnique(c1: ConvertedSet, c2: ConvertedSet, s: ScoreSet, parse: string -> Option<real>)
    requires ConvertedFrom(c1, s, parse) && ConvertedFrom(c2, s, parse)
    ensures c1 == c2
  {
    forall cat | cat in s
      ensures c1[cat] == c2[cat]
    {
      assert c1[cat].Keys == c2[cat].Keys;
    }
  }

  /**
   * On success, the per-sample list has one entry per input sample, and the
   * entry of sample i is converted from the LAST result item whose image id
   * is i, wherever that item stands in the scorer's output.
   */
  lemma PerSampleFromLastResult(results: seq<ResultItem>, n: nat, parse: string -> Option<real>,
                                out: Result<Scored, ScoreError>, i: nat, k: nat)
    requires Reassociated(results, Ids(n), parse, out) && out.Success?
    requires i < n && k < |results| && results[k].imageId == i
    requires forall j :: k < j < |results| ==> results[j].imageId != i
    ensures |out.value.perSample| == n
    ensures ConvertedFrom(out.value.perSample[i], results[k].scores, parse)
  {
    IdTableLastWins(results, k);
    assert Ids(n)[i] == i;
  }

  /** Whether some result item lacks the aggregate leaf does not depend on the order. */
  lemma MissingAllFIgnoresOrder(rs1: seq<ResultItem>, rs2: seq<ResultItem>)
    requires multiset(rs1) == multiset(rs2)
    ensures (exists k :: 0 <= k < |rs1| && !HasAllF(rs1[k])) ==> (exists k :: 0 <= k < |rs2| && !HasAllF(rs2[k]))
  {
    if k :| 0 <= k < |rs1| && !HasAllF(rs1[k]) {
      assert rs1[k] in multiset(rs2);
      var k2 :| 0 <= k2 < |rs2| && rs2[k2] == rs1[k];
    }
  }

  /**
   * The per-sample list does not depend on the order of the scorer's output:
   * a permutation of result items with distinct ids succeeds exactly when the
   * original does and yields the same per-sample list.
   */
  lemma ReassociationIgnoresOrder(rs1: seq<ResultItem>, rs2: seq<ResultItem>, imgIds: seq<int>,
                                  parse: string -> Option<real>,
                                  out1: Result<Scored, ScoreError>, out2: Result<Scored, ScoreError>)
    requires multiset(rs1) == multiset(rs2) && DistinctIds(rs1)
    requires Reassociated(rs1, imgIds, parse, out1) && Reassociated(rs2, imgIds, parse, out2)
    ensures out1.Success? <==> out2.Success?
    ensures out1.Success? ==> out1.value.perSample == out2.value.perSample
  {
    IdTableOrderIndependent(rs1, rs2);
    MissingAllFIgnoresOrder(rs1, rs2);
    MissingAllFIgnoresOrder(rs2, rs1);
    if out1.Success? {
      var p1, p2 := out1.value.perSample, out2.value.perSample;
      forall j | 0 <= j < |imgIds|
        ensures p1[j] == p2[j]
      {
        ConvertedFromUnique(p1[j], p2[j], IdTable(rs1)[imgIds[j]], parse);
      }
    }
  }
}
