/** `MemorySystem`: the interaction log (`interactions.jsonl`), the feedback log
    (`feedback.jsonl`) and the learned OCR/ASR corrections (`corrections.json`).
    Each log is the sequence of the JSON values of its lines; a line is written with
    `json.dumps` and read back with `json.loads`, which give back the same value. */
module Memory {
  import opened Wrappers
  import opened PyJson
  import PyDict
  import Text

  // ---------------------------------------------------------------------------------------
  // Interaction ids
  // ---------------------------------------------------------------------------------------

  /** The string hashed for an interaction's id: `f"{timestamp}_{raw_input}"`, both read with
      `.get(..., '')`. */
  function IdKey(interaction: Fields, show: Json -> string): string
  {
    Str(FieldOr(interaction, "timestamp", JStr("")), show) + "_" + Str(FieldOr(interaction, "raw_input", JStr("")), show)
  }

  /** `hashlib.md5(key.encode()).hexdigest()[:16]`; `md5Hex` is the hex digest. */
  function InteractionId(interaction: Fields, md5Hex: string -> string, show: Json -> string): (id: string)
    ensures var h := md5Hex(IdKey(interaction, show));
            |id| == (if |h| < 16 then |h| else 16) && id == h[..|id|]
  {
    Text.Take(md5Hex(IdKey(interaction, show)), 16)
  }

  /** The record as written: `interaction['interaction_id'] = interaction_id`. */
  function WithId(interaction: Fields, md5Hex: string -> string, show: Json -> string): Fields
  {
    PyDict.Upsert(interaction, "interaction_id", JStr(InteractionId(interaction, md5Hex, show)))
  }

  /** Two interactions with the same timestamp and raw input get the same id, whatever else
      they hold. */
  lemma SameKeySameId(a: Fields, b: Fields, md5Hex: string -> string, show: Json -> string)
    requires IdKey(a, show) == IdKey(b, show)
    ensures InteractionId(a, md5Hex, show) == InteractionId(b, md5Hex, show)
  {
  }

  /** The written record carries its id and otherwise holds exactly the interaction. */
  lemma WithIdFields(interaction: Fields, md5Hex: string -> string, show: Json -> string)
    ensures var rec := WithId(interaction, md5Hex, show);
            PyDict.Lookup(rec, "interaction_id") == Some(JStr(InteractionId(interaction, md5Hex, show)))
            && forall k :: k != "interaction_id" ==> PyDict.Lookup(rec, k) == PyDict.Lookup(interaction, k)
  {
    var v := JStr(InteractionId(interaction, md5Hex, show));
    PyDict.LookupUpsertSame(interaction, "interaction_id", v);
    forall k | k != "interaction_id"
      ensures PyDict.Lookup(PyDict.Upsert(interaction, "interaction_id", v), k) == PyDict.Lookup(interaction, k)
    {
      PyDict.LookupUpsertOther(interaction, "interaction_id", v, k);
    }
  }

  // ---------------------------------------------------------------------------------------
  // Lookup by id
  // ---------------------------------------------------------------------------------------

  /** `interaction.get('interaction_id') == interaction_id` for a dict record. */
  predicate HasId(rec: Json, id: string)
    requires rec.JObject?
  {
    PyDict.Lookup(rec.fields, "interaction_id") == Some(JStr(id))
  }

  /** What `get_interaction` returns for the log's records: the first record with the id, or
      `None` when there is none or when a record before it is not a dict (its `.get` raises). */
  function FirstWithId(records: seq<Json>, id: string): Option<Json>
  {
    if records == [] then None
    else if !records[0].JObject? then None
    else if HasId(records[0], id) then Some(records[0])
    else FirstWithId(records[1..], id)
  }

  /** Record `i` is a dict with the id, and every record before it is a dict without it. */
  predicate FirstMatchAt(records: seq<Json>, id: string, i: int)
  {
    0 <= i < |records| && records[i].JObject? && HasId(records[i], id)
    && forall j :: 0 <= j < i ==> records[j].JObject? && !HasId(records[j], id)
  }

  /** Behind a leading dict without the id, the first match moves one place. */
  lemma FirstMatchShift(records: seq<Json>, id: string, i: int)
    requires records != [] && records[0].JObject? && !HasId(records[0], id)
    ensures FirstMatchAt(records, id, i + 1) <==> FirstMatchAt(records[1..], id, i)
  {
    assert forall j :: 0 <= j < |records| - 1 ==> records[1..][j] == records[j + 1];
  }

  /** A record is found exactly when some record is the first match, and it is that record. */
  lemma {:induction false} FirstWithIdSpec(records: seq<Json>, id: string)
    ensures FirstWithId(records, id).Some? <==> exists i :: FirstMatchAt(records, id, i)
    ensures FirstWithId(records, id).Some? ==>
              exists i :: FirstMatchAt(records, id, i) && records[i] == FirstWithId(records, id).value
    decreases |records|
  {
    if records == [] {
    } else if !records[0].JObject? {
    } else if HasId(records[0], id) {
      assert FirstMatchAt(records, id, 0);
    } else {
      FirstWithIdSpec(records[1..], id);
      if exists i :: FirstMatchAt(records, id, i) {
        var i :| FirstMatchAt(records, id, i);
        assert i != 0;
        FirstMatchShift(records, id, i - 1);
      }
      if FirstWithId(records, id).Some? {
        var i :| FirstMatchAt(records[1..], id, i) && records[1..][i] == FirstWithId(records, id).value;
        FirstMatchShift(records, id, i);
      }
    }
  }

  /** A record appended to a log of dicts none of which has its id is the one found for it. */
  lemma {:induction false} AppendedIsFound(records: seq<Json>, rec: Fields, id: string)
    requires forall i :: 0 <= i < |records| ==> records[i].JObject? && !HasId(records[i], id)
    requires PyDict.Lookup(rec, "interaction_id") == Some(JStr(id))
    ensures FirstWithId(records + [JObject(rec)], id) == Some(JObject(rec))
  {
    if records != [] {
      assert (records + [JObject(rec)])[1..] == records[1..] + [JObject(rec)];
      AppendedIsFound(records[1..], rec, id);
    }
  }

  // ---------------------------------------------------------------------------------------
  // Recent interactions
  // ---------------------------------------------------------------------------------------

  /** `interactions[-n:] if len(interactions) > n else interactions`. */
  function Recent(records: seq<Json>, n: int): seq<Json>
  {
    if |records| > n then Text.SliceFrom(records, -n) else records
  }

  /** For `n >= 1` the result is the last `n` records in stored order, or all of them. */
  lemma RecentIsLastN(records: seq<Json>, n: int)
    requires n >= 1
    ensures var r := Recent(records, n);
            |r| == (if |records| < n then |records| else n)
            && r == records[|records| - |r|..]
  {
  }

  /** With `n == 0` the slice `interactions[-0:]` is the whole log, not an empty one. */
  lemma RecentZeroIsAll(records: seq<Json>)
    ensures Recent(records, 0) == records
  {
  }

  // ---------------------------------------------------------------------------------------
  // Similar problems
  // ---------------------------------------------------------------------------------------

  /** `set(text.lower().split())` */
  function Keywords(text: string): set<string>
  {
    set w | w in Text.Words(Text.Lower(text))
  }

  /** A record kept as similar, with the overlap it was given as `similarity_score`. */
  datatype Scored = Scored(record: Json, score: nat)

  /** What the scan does with one record: skip it, keep it, or raise (which makes
      `find_similar_problems` return `[]`). */
  datatype Verdict = Skip | Keep(scored: Scored) | Abort

  /** The topic a record's parsed problem has, as `past_problem.get('topic')` reads it. */
  function PastTopic(past: Fields): Json
  {
    FieldOr(past, "topic", JNull)
  }

  function Assess(rec: Json, keywords: set<string>, topic: Json): Verdict
  {
    if !rec.JObject? then Abort
    else
      var past := FieldOr(rec.fields, "parsed_problem", JObject([]));
      if !past.JObject? then Abort
      else if !PyEq(PastTopic(past.fields), topic) then Skip
      else
        var pastText := FieldOr(past.fields, "problem_text", JStr(""));
        if !pastText.JStr? then Abort
        else
          var overlap := |keywords * Keywords(pastText.s)|;
          if overlap > 2 then Keep(Scored(JObject(PyDict.Upsert(rec.fields, "similarity_score", JInt(overlap))), overlap))
          else Skip
  }

  /** The records the scan keeps, in log order, or `None` if it raised on one of them. */
  function Candidates(records: seq<Json>, keywords: set<string>, topic: Json): Option<seq<Scored>>
  {
    if records == [] then Some([])
    else
      var kept :- Candidates(records[..|records| - 1], keywords, topic);
      match Assess(records[|records| - 1], keywords, topic)
      case Abort => None
      case Skip => Some(kept)
      case Keep(s) => Some(kept + [s])
  }

  /** Scanning one more record: a raise ends the scan, a skip keeps the list, a match appends. */
  lemma CandidatesExtend(records: seq<Json>, i: nat, keywords: set<string>, topic: Json, kept: seq<Scored>)
    requires i < |records| && Candidates(records[..i], keywords, topic) == Some(kept)
    ensures Assess(records[i], keywords, topic).Abort? ==> Candidates(records[..i + 1], keywords, topic).None?
    ensures Assess(records[i], keywords, topic).Skip? ==> Candidates(records[..i + 1], keywords, topic) == Some(kept)
    ensures Assess(records[i], keywords, topic).Keep?
            ==> Candidates(records[..i + 1], keywords, topic) == Some(kept + [Assess(records[i], keywords, topic).scored])
  {
    assert records[..i + 1][..i] == records[..i];
  }

  /** A raise on a prefix of the log is a raise on the whole log. */
  lemma {:induction false} AbortPersists(records: seq<Json>, i: nat, keywords: set<string>, topic: Json)
    requires i <= |records| && Candidates(records[..i], keywords, topic).None?
    ensures Candidates(records, keywords, topic).None?
    decreases |records| - i
  {
    if i < |records| {
      assert records[..i + 1][..i] == records[..i];
      AbortPersists(records, i + 1, keywords, topic);
    } else {
      assert records[..i] == records;
    }
  }

  /** A record is kept only when its parsed problem has the query's topic and it shares more than
      two keywords with the query; it is returned with that count as its `similarity_score`. */
  predicate KeptFor(s: Scored, keywords: set<string>, topic: Json)
  {
    s.score > 2
    && s.record.JObject?
    && PyDict.Lookup(s.record.fields, "similarity_score") == Some(JInt(s.score))
    && var past := FieldOr(s.record.fields, "parsed_problem", JObject([]));
       past.JObject? && PyEq(PastTopic(past.fields), topic)
       && var pastText := FieldOr(past.fields, "problem_text", JStr(""));
          pastText.JStr? && s.score == |keywords * Keywords(pastText.s)|
  }

  lemma {:induction false} CandidatesKept(records: seq<Json>, keywords: set<string>, topic: Json)
    requires Candidates(records, keywords, topic).Some?
    ensures forall s :: s in Candidates(records, keywords, topic).value ==> KeptFor(s, keywords, topic)
  {
    if records != [] {
      var prefix := records[..|records| - 1];
      CandidatesKept(prefix, keywords, topic);
      var rec := records[|records| - 1];
      match Assess(rec, keywords, topic)
      case Skip =>
      case Abort =>
      case Keep(s) =>
        PyDict.LookupUpsertSame(rec.fields, "similarity_score", JInt(s.score));
        PyDict.LookupUpsertOther(rec.fields, "similarity_score", JInt(s.score), "parsed_problem");
    }
  }

  /** The indices of the records the scan keeps, in log order. */
  function KeepIndices(records: seq<Json>, keywords: set<string>, topic: Json): seq<nat>
  {
    if records == [] then []
    else
      var n := |records| - 1;
      var ix := KeepIndices(records[..n], keywords, topic);
      if Assess(records[n], keywords, topic).Keep? then ix + [n] else ix
  }

  /** Every listed index holds a record the scan keeps. */
  lemma {:induction false} KeepIndicesKept(records: seq<Json>, keywords: set<string>, topic: Json)
    ensures forall a :: 0 <= a < |KeepIndices(records, keywords, topic)| ==>
              KeepIndices(records, keywords, topic)[a] < |records|
              && Assess(records[KeepIndices(records, keywords, topic)[a]], keywords, topic).Keep?
  {
    if records != [] {
      var n := |records| - 1;
      var prefix := records[..n];
      KeepIndicesKept(prefix, keywords, topic);
      var ixp := KeepIndices(prefix, keywords, topic);
      var ix := KeepIndices(records, keywords, topic);
      assert ix == if Assess(records[n], keywords, topic).Keep? then ixp + [n] else ixp;
      forall a | 0 <= a < |ix|
        ensures ix[a] < |records| && Assess(records[ix[a]], keywords, topic).Keep?
      {
        if a < |ixp| {
          assert Assess(prefix[ixp[a]], keywords, topic).Keep?;
          assert ix[a] == ixp[a] && prefix[ixp[a]] == records[ix[a]];
        } else {
          assert Assess(records[n], keywords, topic).Keep? && ix[a] == n;
        }
      }
    }
  }

  /** The indices are listed in increasing order, so each once. */
  lemma {:induction false} KeepIndicesIncreasing(records: seq<Json>, keywords: set<string>, topic: Json)
    ensures forall a, b :: 0 <= a < b < |KeepIndices(records, keywords, topic)| ==>
              KeepIndices(records, keywords, topic)[a] < KeepIndices(records, keywords, topic)[b]
  {
    if records != [] {
      var n := |records| - 1;
      var prefix := records[..n];
      KeepIndicesIncreasing(prefix, keywords, topic);
      KeepIndicesKept(prefix, keywords, topic);
      var ixp := KeepIndices(prefix, keywords, topic);
      var ix := KeepIndices(records, keywords, topic);
      assert ix == if Assess(records[n], keywords, topic).Keep? then ixp + [n] else ixp;
      forall a, b | 0 <= a < b < |ix|
        ensures ix[a] < ix[b]
      {
        assert ix[a] == ixp[a] && ixp[a] < n;
        if b < |ixp| {
          assert ix[b] == ixp[b];
        } else {
          assert ix[b] == n;
        }
      }
    }
  }

  /** Every record the scan keeps has its index listed. */
  lemma {:induction false} KeepIndicesCover(records: seq<Json>, keywords: set<string>, topic: Json)
    ensures forall i :: 0 <= i < |records| && Assess(records[i], keywords, topic).Keep? ==>
              i in KeepIndices(records, keywords, topic)
  {
    if records != [] {
      var n := |records| - 1;
      var prefix := records[..n];
      KeepIndicesCover(prefix, keywords, topic);
      var ixp := KeepIndices(prefix, keywords, topic);
      var ix := KeepIndices(records, keywords, topic);
      assert ix == if Assess(records[n], keywords, topic).Keep? then ixp + [n] else ixp;
      forall i | 0 <= i < |records| && Assess(records[i], keywords, topic).Keep?
        ensures i in ix
      {
        if i < n {
          assert prefix[i] == records[i];
          assert i in ixp;
        }
      }
    }
  }

  /** No record makes the scan raise. */
  predicate NoAbort(records: seq<Json>, keywords: set<string>, topic: Json)
  {
    forall i :: 0 <= i < |records| ==> !Assess(records[i], keywords, topic).Abort?
  }

  lemma NoAbortSnoc(records: seq<Json>, keywords: set<string>, topic: Json)
    requires records != []
    ensures NoAbort(records, keywords, topic)
            <==> NoAbort(records[..|records| - 1], keywords, topic) && !Assess(records[|records| - 1], keywords, topic).Abort?
  {
    var n := |records| - 1;
    var prefix := records[..n];
    if NoAbort(prefix, keywords, topic) && !Assess(records[n], keywords, topic).Abort? {
      forall i | 0 <= i < |records|
        ensures !Assess(records[i], keywords, topic).Abort?
      {
        if i < n {
          assert prefix[i] == records[i];
        }
      }
    }
    if NoAbort(records, keywords, topic) {
      forall i | 0 <= i < n
        ensures !Assess(prefix[i], keywords, topic).Abort?
      {
        assert prefix[i] == records[i];
      }
    }
  }

  /** The scan succeeds exactly when no record raises, and then keeps every record that passes the
      filter, each once, in log order: entry `a` of the kept list is the record at the `a`-th kept
      index. */
  lemma {:induction false} CandidatesComplete(records: seq<Json>, keywords: set<string>, topic: Json)
    ensures Candidates(records, keywords, topic).Some? <==> NoAbort(records, keywords, topic)
    ensures Candidates(records, keywords, topic).Some? ==>
              var kept := Candidates(records, keywords, topic).value;
              var ix := KeepIndices(records, keywords, topic);
              |kept| == |ix|
              && forall a :: 0 <= a < |kept| ==> ix[a] < |records| && Assess(records[ix[a]], keywords, topic) == Keep(kept[a])
  {
    if records != [] {
      var n := |records| - 1;
      var prefix := records[..n];
      CandidatesComplete(prefix, keywords, topic);
      var last := Assess(records[n], keywords, topic);
      var ixp := KeepIndices(prefix, keywords, topic);
      var ix := KeepIndices(records, keywords, topic);
      assert ix == if last.Keep? then ixp + [n] else ixp;
      NoAbortSnoc(records, keywords, topic);
      if Candidates(records, keywords, topic).Some? {
        var keptp := Candidates(prefix, keywords, topic).value;
        var kept := Candidates(records, keywords, topic).value;
        assert kept == if last.Keep? then keptp + [last.scored] else keptp;
        KeepIndicesKept(prefix, keywords, topic);
        forall a | 0 <= a < |kept|
          ensures ix[a] < |records| && Assess(records[ix[a]], keywords, topic) == Keep(kept[a])
        {
          if a < |keptp| {
            assert ix[a] == ixp[a] && ixp[a] < n;
            assert prefix[ixp[a]] == records[ix[a]];
          }
        }
      }
    }
  }

  /** `similar.sort(key=lambda x: x.get('similarity_score', 0), reverse=True)`: by score, highest
      first (every candidate has had its score set, so the default 0 is never read); Python's sort
      is stable, so equal scores keep their order. */
  function Insert(x: Scored, ys: seq<Scored>): (r: seq<Scored>)
    ensures multiset(r) == multiset(ys) + multiset{x}
  {
    if ys == [] || x.score >= ys[0].score then [x] + ys
    else
      assert ys == [ys[0]] + ys[1..];
      [ys[0]] + Insert(x, ys[1..])
  }

  function SortByScore(xs: seq<Scored>): (r: seq<Scored>)
    ensures multiset(r) == multiset(xs)
  {
    if xs == [] then []
    else
      assert xs == [xs[0]] + xs[1..];
      Insert(xs[0], SortByScore(xs[1..]))
  }

  predicate SortedDesc(xs: seq<Scored>)
  {
    forall i, j :: 0 <= i < j < |xs| ==> xs[i].score >= xs[j].score
  }

  /** The items with score `s`, in order. */
  function WithScore(xs: seq<Scored>, s: nat): seq<Scored>
  {
    if xs == [] then [] else (if xs[0].score == s then [xs[0]] else []) + WithScore(xs[1..], s)
  }

  lemma {:induction false} InsertSorted(x: Scored, ys: seq<Scored>)
    requires SortedDesc(ys)
    ensures SortedDesc(Insert(x, ys))
  {
    if ys != [] && x.score < ys[0].score {
      InsertSorted(x, ys[1..]);
      var r := Insert(x, ys);
      var t := Insert(x, ys[1..]);
      assert r == [ys[0]] + t;
      forall k | 0 <= k < |t| ensures ys[0].score >= t[k].score {
        assert t[k] in multiset(t);
        assert t[k] in multiset(ys[1..]) + multiset{x};
        if t[k] != x {
          assert t[k] in ys[1..];
        }
      }
    }
  }

  lemma {:induction false} InsertWithScore(x: Scored, ys: seq<Scored>, s: nat)
    ensures WithScore(Insert(x, ys), s) == (if x.score == s then [x] else []) + WithScore(ys, s)
  {
    if ys == [] || x.score >= ys[0].score {
      assert ([x] + ys)[1..] == ys;
    } else {
      InsertWithScore(x, ys[1..], s);
      assert ([ys[0]] + Insert(x, ys[1..]))[1..] == Insert(x, ys[1..]);
    }
  }

  /** The sort orders by score, highest first, keeps every item, and keeps the log order among
      items with the same score. */
  lemma {:induction false} SortByScoreSpec(xs: seq<Scored>)
    ensures SortedDesc(SortByScore(xs))
    ensures multiset(SortByScore(xs)) == multiset(xs)
    ensures forall s :: WithScore(SortByScore(xs), s) == WithScore(xs, s)
  {
    if xs != [] {
      SortByScoreSpec(xs[1..]);
      InsertSorted(xs[0], SortByScore(xs[1..]));
      forall s ensures WithScore(SortByScore(xs), s) == WithScore(xs, s) {
        InsertWithScore(xs[0], SortByScore(xs[1..]), s);
      }
    }
  }

  function Records(xs: seq<Scored>): (rs: seq<Json>)
    ensures |rs| == |xs| && forall i :: 0 <= i < |xs| ==> rs[i] == xs[i].record
  {
    seq(|xs|, i requires 0 <= i < |xs| => xs[i].record)
  }

  /** What `find_similar_problems` returns, with scores: nothing without a log, nothing when the
      query is not a string (its `.lower()` raises) or the scan raised, otherwise the kept records
      by score, cut with `similar[:n]`. */
  function SimilarScored(log: Option<seq<Json>>, problemText: Json, topic: Json, n: int): seq<Scored>
  {
    if log.None? || !problemText.JStr? then []
    else match Candidates(log.value, Keywords(problemText.s), topic)
      case None => []
      case Some(kept) => Text.SliceTo(SortByScore(kept), n)
  }

  /** Every record returned is one the scan kept (same topic, more than two shared keywords),
      the list is ordered by score, highest first, ties in log order, and holds the top `n`. */
  lemma SimilarSpec(records: seq<Json>, problemText: string, topic: Json, n: nat)
    requires Candidates(records, Keywords(problemText), topic).Some?
    ensures forall s :: s in SimilarScored(Some(records), JStr(problemText), topic, n)
                        ==> KeptFor(s, Keywords(problemText), topic)
    ensures SortedDesc(SimilarScored(Some(records), JStr(problemText), topic, n))
    ensures var kept := Candidates(records, Keywords(problemText), topic).value;
            var r := SimilarScored(Some(records), JStr(problemText), topic, n);
            |r| == (if |kept| < n then |kept| else n) && r == SortByScore(kept)[..|r|]
    ensures var kept := Candidates(records, Keywords(problemText), topic).value;
            forall s :: WithScore(SortByScore(kept), s) == WithScore(kept, s)
  {
    var kept := Candidates(records, Keywords(problemText), topic).value;
    CandidatesKept(records, Keywords(problemText), topic);
    SortByScoreSpec(kept);
    var sorted := SortByScore(kept);
    var r := Text.Take(sorted, n);
    assert SimilarScored(Some(records), JStr(problemText), topic, n) == r;
    forall s | s in r ensures KeptFor(s, Keywords(problemText), topic) {
      assert s in multiset(sorted);
    }
  }

  /** The result once the scan over the log has ended: the kept list sorted and cut, or nothing
      when the scan raised. */
  lemma SimilarFromScan(log: Option<seq<Json>>, problemText: Json, topic: Json, n: int, similar: seq<Scored>)
    requires log.Some? && problemText.JStr?
    ensures Candidates(log.value, Keywords(problemText.s), topic) == Some(similar)
            ==> SimilarScored(log, problemText, topic, n) == Text.SliceTo(SortByScore(similar), n)
    ensures Candidates(log.value, Keywords(problemText.s), topic).None?
            ==> SimilarScored(log, problemText, topic, n) == []
  {
  }

  /** A query that is not a string finds nothing. */
  lemma NonStringQueryFindsNothing(log: Option<seq<Json>>, problemText: Json, topic: Json, n: int)
    requires !problemText.JStr?
    ensures SimilarScored(log, problemText, topic, n) == []
  {
  }

  // ---------------------------------------------------------------------------------------
  // Learned corrections
  // ---------------------------------------------------------------------------------------

  /** The contents of `corrections.json` when the store is created. */
  datatype CorrectionsFile = Missing | Unreadable | Holds(content: Json)

  const EmptyCorrections: Json := JObject([("ocr_corrections", JObject([])), ("asr_corrections", JObject([]))])

  /** `_load_corrections`: whatever `json.load` returns, or two empty maps. */
  function LoadCorrections(file: CorrectionsFile): (c: Json)
    ensures file.Holds? ==> c == file.content
    ensures !file.Holds? ==> c == EmptyCorrections
  {
    if file.Holds? then file.content else EmptyCorrections
  }

  /** The map a correction type uses: `'ocr'` the OCR map, anything else the ASR map. */
  function MapKey(correctionType: string): string
  {
    if correctionType == "ocr" then "ocr_corrections" else "asr_corrections"
  }

  /** `self.corrections[key][original] = corrected`, or `None` when it raises (the corrections
      are not a dict, the map is missing, or the map is not a dict). */
  function SetCorrection(corrections: Json, key: string, original: string, corrected: string): (r: Option<Json>)
    ensures r.Some? ==> r.value.JObject? && corrections.JObject?
  {
    match Subscript(corrections, key)
    case Failure(_) => None
    case Success(inner) =>
      if !inner.JObject? then None
      else Some(JObject(PyDict.Upsert(corrections.fields, key, JObject(PyDict.Upsert(inner.fields, original, JStr(corrected))))))
  }

  /** The corrections after `store_user_correction`: only `'ocr'` and `'asr'` write, and a raise
      leaves them as they were. */
  function StoredCorrections(corrections: Json, original: string, corrected: string, correctionType: string): Option<Json>
  {
    if correctionType == "ocr" || correctionType == "asr" then SetCorrection(corrections, MapKey(correctionType), original, corrected)
    else Some(corrections)
  }

  /** A stored correction is then found in its map, and the other map is untouched. */
  lemma StoredCorrectionFields(corrections: Json, original: string, corrected: string, correctionType: string)
    requires correctionType == "ocr" || correctionType == "asr"
    requires StoredCorrections(corrections, original, corrected, correctionType).Some?
    ensures var after := StoredCorrections(corrections, original, corrected, correctionType).value;
            var key := MapKey(correctionType);
            var other := MapKey(if correctionType == "ocr" then "asr" else "ocr");
            PyDict.Lookup(after.fields, key).Some? && PyDict.Lookup(after.fields, key).value.JObject?
            && PyDict.Lookup(PyDict.Lookup(after.fields, key).value.fields, original) == Some(JStr(corrected))
            && PyDict.Lookup(after.fields, other) == PyDict.Lookup(corrections.fields, other)
  {
    var key := MapKey(correctionType);
    var other := MapKey(if correctionType == "ocr" then "asr" else "ocr");
    var inner := Subscript(corrections, key).value;
    var newInner := JObject(PyDict.Upsert(inner.fields, original, JStr(corrected)));
    PyDict.LookupUpsertSame(corrections.fields, key, newInner);
    PyDict.LookupUpsertSame(inner.fields, original, JStr(corrected));
    PyDict.LookupUpsertOther(corrections.fields, key, newInner, other);
  }

  /** One step of the loop: a key that occurs is replaced everywhere; replacing with a value that
      is not a string raises. */
  function ApplyOne(text: string, original: string, corrected: Json): Option<string>
  {
    if !Text.Contains(text, original) then Some(text)
    else if corrected.JStr? then Some(Text.ReplaceAll(text, original, corrected.s))
    else None
  }

  /** The corrections of a map applied in insertion order, or `None` if a step raised. */
  function ApplyAll(text: string, pairs: Fields): Option<string>
    decreases |pairs|
  {
    if pairs == [] then Some(text)
    else
      var next :- ApplyOne(text, pairs[0].0, pairs[0].1);
      ApplyAll(next, pairs[1..])
  }

  /** What `apply_learned_corrections` returns: the corrected text, or the text unchanged when
      anything raised (corrections or map not a dict, a value not a string). */
  function Corrected(corrections: Json, text: string, correctionType: string): string
  {
    match Get(corrections, MapKey(correctionType), JObject([]))
    case Failure(_) => text
    case Success(m) =>
      if !m.JObject? then text
      else ApplyAll(text, m.fields).GetOr(text)
  }

  /** Text in which no key of the map occurs comes back unchanged. */
  lemma {:induction false} NoKeyUnchanged(text: string, pairs: Fields)
    requires forall i :: 0 <= i < |pairs| ==> !Text.Contains(text, pairs[i].0)
    ensures ApplyAll(text, pairs) == Some(text)
  {
    if pairs != [] {
      NoKeyUnchanged(text, pairs[1..]);
    }
  }

  /** Applying a map is applying its first part and then its second part. */
  lemma {:induction false} ApplyAllConcat(text: string, a: Fields, b: Fields)
    ensures ApplyAll(text, a + b) == (match ApplyAll(text, a) case None => None case Some(t) => ApplyAll(t, b))
    decreases |a|
  {
    if a != [] {
      assert (a + b)[0] == a[0] && (a + b)[1..] == a[1..] + b;
      match ApplyOne(text, a[0].0, a[0].1)
      case None =>
      case Some(next) => ApplyAllConcat(next, a[1..], b);
    } else {
      assert a + b == b;
    }
  }

  /** A correction for a new original is applied after every earlier one. */
  lemma NewCorrectionAppliedLast(text: string, pairs: Fields, original: string, corrected: string)
    requires original !in PyDict.Keys(pairs)
    ensures ApplyAll(text, PyDict.Upsert(pairs, original, JStr(corrected)))
         == (match ApplyAll(text, pairs) case None => None case Some(t) => Some(if Text.Contains(t, original) then Text.ReplaceAll(t, original, corrected) else t))
  {
    UpsertNewAppends(pairs, original, JStr(corrected));
    ApplyAllConcat(text, pairs, [(original, JStr(corrected))]);
  }

  lemma {:induction false} UpsertNewAppends(d: Fields, k: string, v: Json)
    requires k !in PyDict.Keys(d)
    ensures PyDict.Upsert(d, k, v) == d + [(k, v)]
  {
    if d != [] {
      assert PyDict.Keys(d)[0] == d[0].0;
      assert forall i :: 0 <= i < |d| - 1 ==> PyDict.Keys(d[1..])[i] == PyDict.Keys(d)[i + 1];
      UpsertNewAppends(d[1..], k, v);
    }
  }

  /** A single learned correction whose replacement shares no character with the original
      removes every occurrence of the original. */
  lemma SingleCorrectionRemoves(text: string, original: string, corrected: string)
    requires original != [] && corrected != []
    requires forall c :: c in corrected ==> c !in original
    ensures ApplyAll(text, [(original, JStr(corrected))]).Some?
    ensures !Text.Contains(ApplyAll(text, [(original, JStr(corrected))]).value, original)
  {
    if Text.Contains(text, original) {
      Text.ReplaceAllRemoves(text, original, corrected);
    }
  }

  // ---------------------------------------------------------------------------------------
  // The store
  // ---------------------------------------------------------------------------------------

  class MemorySystem {
    /** The records of `interactions.jsonl`, or `None` while the file does not exist. */
    var interactions: Option<seq<Json>>
    /** The entries of `feedback.jsonl`. */
    var feedback: seq<Json>
    /** `self.corrections` */
    var corrections: Json
    /** What `corrections.json` holds. */
    var correctionsFile: CorrectionsFile

    /** `__init__` with `_load_corrections`. */
    constructor(log: Option<seq<Json>>, feedbackLog: seq<Json>, file: CorrectionsFile)
      ensures interactions == log && feedback == feedbackLog && correctionsFile == file
      ensures corrections == LoadCorrections(file)
    {
      interactions := log;
      feedback := feedbackLog;
      correctionsFile := file;
      corrections := LoadCorrections(file);
    }

    /** `store_interaction`: appends the record with its id and returns the id, or returns `""`
        when the file could not be written (`writeOk` false). */
    method StoreInteraction(interaction: Fields, md5Hex: string -> string, show: Json -> string, writeOk: bool)
      returns (id: string)
      modifies this
      ensures writeOk ==> id == InteractionId(interaction, md5Hex, show)
                          && interactions == Some(old(interactions).GetOr([]) + [JObject(WithId(interaction, md5Hex, show))])
      ensures !writeOk ==> id == "" && interactions == old(interactions)
      ensures feedback == old(feedback) && corrections == old(corrections) && correctionsFile == old(correctionsFile)
    {
      var interactionId := InteractionId(interaction, md5Hex, show);
      var record := WithId(interaction, md5Hex, show);
      if !writeOk {
        return "";
      }
      var existing := if interactions.Some? then interactions.value else [];
      interactions := Some(existing + [JObject(record)]);
      id := interactionId;
    }

    /** `get_interaction` */
    method GetInteraction(id: string) returns (r: Option<Json>)
      ensures interactions.None? ==> r.None?
      ensures interactions.Some? ==> r == FirstWithId(interactions.value, id)
    {
      if interactions.None? {
        return None;
      }
      var records := interactions.value;
      var i := 0;
      while i < |records|
        invariant 0 <= i <= |records|
        invariant FirstWithId(records, id) == FirstWithId(records[i..], id)
      {
        var rec := records[i];
        assert records[i..][1..] == records[i + 1..];
        if !rec.JObject? {
          return None;
        }
        if PyDict.Lookup(rec.fields, "interaction_id") == Some(JStr(id)) {
          return Some(rec);
        }
        i := i + 1;
      }
      r := None;
    }

    /** `get_recent_interactions` */
    method GetRecentInteractions(n: int) returns (r: seq<Json>)
      ensures interactions.None? ==> r == []
      ensures interactions.Some? ==> r == Recent(interactions.value, n)
    {
      if interactions.None? {
        return [];
      }
      var records := interactions.value;
      r := if |records| > n then Text.SliceFrom(records, -n) else records;
    }

    /** `find_similar_problems` */
    method FindSimilarProblems(problemText: Json, topic: Json, n: int) returns (r: seq<Json>)
      ensures r == Records(SimilarScored(interactions, problemText, topic, n))
    {
      if interactions.None? || !problemText.JStr? {
        return [];
      }
      var records := interactions.value;
      var keywords := Keywords(problemText.s);
      var similar: seq<Scored> := [];
      var i := 0;
      while i < |records|
        invariant 0 <= i <= |records|
        invariant Candidates(records[..i], keywords, topic) == Some(similar)
      {
        CandidatesExtend(records, i, keywords, topic, similar);
        var verdict := Assess(records[i], keywords, topic);
        match verdict {
          case Abort =>
            AbortPersists(records, i + 1, keywords, topic);
            SimilarFromScan(interactions, problemText, topic, n, []);
            return [];
          case Skip =>
          case Keep(s) =>
            similar := similar + [s];
        }
        i := i + 1;
      }
      assert records[..i] == records;
      SimilarFromScan(interactions, problemText, topic, n, similar);
      r := Records(Text.SliceTo(SortByScore(similar), n));
    }

    /** `store_user_correction` with `_save_corrections`: the file is rewritten (when `saveOk`)
        unless updating the map raised. */
    method StoreUserCorrection(original: string, corrected: string, correctionType: string, saveOk: bool)
      modifies this
      ensures var stored := StoredCorrections(old(corrections), original, corrected, correctionType);
              corrections == stored.GetOr(old(corrections))
              && correctionsFile == (if stored.Some? && saveOk then Holds(corrections) else old(correctionsFile))
      ensures interactions == old(interactions) && feedback == old(feedback)
    {
      var stored := StoredCorrections(corrections, original, corrected, correctionType);
      if stored.None? {
        return;
      }
      corrections := stored.value;
      if saveOk {
        correctionsFile := Holds(corrections);
      }
    }

    /** `apply_learned_corrections` */
    method ApplyLearnedCorrections(text: string, correctionType: string) returns (r: string)
      ensures r == Corrected(corrections, text, correctionType)
    {
      var selected := Get(corrections, MapKey(correctionType), JObject([]));
      if selected.Failure? || !selected.value.JObject? {
        return text;
      }
      var pairs := selected.value.fields;
      var correctedText := text;
      var i := 0;
      while i < |pairs|
        invariant 0 <= i <= |pairs|
        invariant ApplyAll(text, pairs) == ApplyAll(correctedText, pairs[i..])
      {
        assert pairs[i..][1..] == pairs[i + 1..];
        var (original, replacement) := pairs[i];
        if Text.Contains(correctedText, original) {
          if !replacement.JStr? {
            return text;
          }
          correctedText := Text.ReplaceAll(correctedText, original, replacement.s);
        }
        i := i + 1;
      }
      r := correctedText;
    }

    /** `store_feedback`: appends `{timestamp, interaction_id, feedback}` when the file could be
        written. */
    method StoreFeedback(interactionId: string, entry: Json, now: string, writeOk: bool)
      modifies this
      ensures feedback == old(feedback) + (if writeOk then [FeedbackEntry(interactionId, entry, now)] else [])
      ensures interactions == old(interactions) && corrections == old(corrections) && correctionsFile == old(correctionsFile)
    {
      if writeOk {
        feedback := feedback + [FeedbackEntry(interactionId, entry, now)];
      }
    }
  }

  function FeedbackEntry(interactionId: string, entry: Json, now: string): Json
  {
    JObject([("timestamp", JStr(now)), ("interaction_id", JStr(interactionId)), ("feedback", entry)])
  }
}
