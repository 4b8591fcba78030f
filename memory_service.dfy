/** Semantic memory: stored memories with access tracking, the similarity
    filter applied to the rows a vector search returns, and the transcript,
    summary and importance score used to save a conversation as a memory.
    Embeddings, cosine distances and the summarising model call are inputs. */
module MemoryService {
  import opened Records
  import opened Text

  // ------------------------------------------------------------ importance

  /** Emotions that make a memory clearly more important. */
  const StrongEmotions: seq<string> := ["anxious", "sad", "angry", "overwhelmed"]
  /** Emotions that make a memory somewhat more important. */
  const MildEmotions: seq<string> := ["stressed", "frustrated"]

  /** The emotion part of the importance score, in tenths. */
  function EmotionWeight(emotionState: string): (w: int)
    ensures emotionState in StrongEmotions ==> w == 2
    ensures emotionState in MildEmotions ==> w == 1
    ensures emotionState !in StrongEmotions + MildEmotions ==> w == 0
  {
    if emotionState in StrongEmotions then 2
    else if emotionState in MildEmotions then 1
    else 0
  }

  /** The theme part of the importance score, in tenths. */
  function ThemeWeight(themes: seq<string>): (w: int)
    ensures |themes| >= 2 ==> w == 1
    ensures |themes| < 2 ==> w == 0
  {
    if |themes| >= 2 then 1 else 0
  }

  /** `_calculateImportance`, in integer tenths (0.5 is 5): a base of 5 plus
      the emotion and theme weights, capped at 10. */
  method CalculateImportance(emotionState: string, themes: seq<string>) returns (score: int)
    ensures 5 <= score <= 8
    ensures score == 5 + EmotionWeight(emotionState) + ThemeWeight(themes)
  {
    score := 5;
    if emotionState in StrongEmotions {
      score := score + 2;
    } else if emotionState in MildEmotions {
      score := score + 1;
    }
    if |themes| >= 2 {
      score := score + 1;
    }
    score := if score < 10 then score else 10;
  }

  /** The two emotion lists are disjoint, so an emotion gets one weight. */
  lemma EmotionListsDisjoint(emotionState: string)
    ensures !(emotionState in StrongEmotions && emotionState in MildEmotions)
  {
  }

  /** Themes add to the score whatever the emotion: having two or more themes
      raises it by exactly one tenth. */
  lemma ThemesAddOneTenth(emotionState: string, few: seq<string>, many: seq<string>)
    requires |few| < 2 <= |many|
    ensures 5 + EmotionWeight(emotionState) + ThemeWeight(many)
         == 5 + EmotionWeight(emotionState) + ThemeWeight(few) + 1
  {
  }

  /** The score as the stored real number. */
  function ImportanceScore(tenths: int): (x: real)
    ensures x * 10.0 == tenths as real
  {
    tenths as real / 10.0
  }

  // ---------------------------------------------------------------- memory

  /** A row of the semantic_memories table. Only the access counter and the
      last-access time change after the row is created. */
  class SemanticMemory {
    const id: Uuid
    const userId: Uuid
    const conversationId: Option<Uuid>
    const content: string
    const memoryType: string
    const importanceScore: real
    const emotionalContext: map<string, JsonValue>
    const tags: seq<string>
    const createdAt: Timestamp
    var accessCount: int
    var lastAccessedAt: Option<Timestamp>

    constructor (id: Uuid, userId: Uuid, conversationId: Option<Uuid>, content: string,
                 memoryType: string, importanceScore: real,
                 emotionalContext: map<string, JsonValue>, tags: seq<string>, createdAt: Timestamp)
      ensures this.id == id && this.userId == userId && this.conversationId == conversationId
      ensures this.content == content && this.memoryType == memoryType
      ensures this.importanceScore == importanceScore
      ensures this.emotionalContext == emotionalContext && this.tags == tags
      ensures this.createdAt == createdAt
      ensures accessCount == 0 && lastAccessedAt == None
    {
      this.id := id;
      this.userId := userId;
      this.conversationId := conversationId;
      this.content := content;
      this.memoryType := memoryType;
      this.importanceScore := importanceScore;
      this.emotionalContext := emotionalContext;
      this.tags := tags;
      this.createdAt := createdAt;
      accessCount := 0;
      lastAccessedAt := None;
    }

    /** Records one access at time `now`. */
    method Touch(now: Timestamp)
      modifies this
      ensures accessCount == old(accessCount) + 1 && lastAccessedAt == Some(now)
    {
      accessCount := accessCount + 1;
      lastAccessedAt := Some(now);
    }
  }

  /** Why saving a memory failed. */
  datatype MemoryError = EmbeddingFailed

  /** `saveSemanticMemory`: a new memory with no accesses; missing context and
      tags are stored empty. The embedding call failing is re-raised. */
  method SaveSemanticMemory(userId: Uuid, conversationId: Option<Uuid>, content: string,
                            memoryType: string, emotionalContext: Option<map<string, JsonValue>>,
                            tags: Option<seq<string>>, importanceScore: real,
                            embeddingAvailable: bool, freshId: Uuid, now: Timestamp)
    returns (r: Result<SemanticMemory, MemoryError>)
    ensures !embeddingAvailable ==> r == Err(EmbeddingFailed)
    ensures embeddingAvailable ==> r.Ok? && fresh(r.value)
    ensures r.Ok? ==>
      var m := r.value;
      m.id == freshId && m.userId == userId && m.conversationId == conversationId
      && m.content == content && m.memoryType == memoryType
      && m.importanceScore == importanceScore
      && m.emotionalContext == emotionalContext.GetOr(map[])
      && m.tags == tags.GetOr([])
      && m.createdAt == now && m.accessCount == 0 && m.lastAccessedAt == None
  {
    if !embeddingAvailable {
      return Err(EmbeddingFailed);
    }
    var m := new SemanticMemory(freshId, userId, conversationId, content, memoryType,
                                importanceScore, emotionalContext.GetOr(map[]),
                                tags.GetOr([]), now);
    r := Ok(m);
  }

  // ---------------------------------------------------------------- search

  /** A row of the vector search: a memory and its similarity to the query. */
  datatype Scored = Scored(memory: SemanticMemory, similarity: real)

  /** One search result, as the dictionary the search returns. */
  datatype MemoryHit = MemoryHit(
    id: Uuid,
    content: string,
    memoryType: string,
    emotionalContext: map<string, JsonValue>,
    tags: seq<string>,
    importance: real,
    createdAt: Timestamp,
    similarity: real)

  function Hit(row: Scored): (h: MemoryHit)
    ensures h.id == row.memory.id && h.content == row.memory.content
    ensures h.similarity == row.similarity && h.importance == row.memory.importanceScore
    ensures h.memoryType == row.memory.memoryType && h.emotionalContext == row.memory.emotionalContext
    ensures h.tags == row.memory.tags && h.createdAt == row.memory.createdAt
  {
    var m := row.memory;
    MemoryHit(m.id, m.content, m.memoryType, m.emotionalContext, m.tags,
              m.importanceScore, m.createdAt, row.similarity)
  }

  /** No memory appears in two rows. */
  predicate Distinct(rows: seq<Scored>) {
    forall i, j :: 0 <= i < j < |rows| ==> rows[i].memory != rows[j].memory
  }

  function Objects(rows: seq<Scored>): set<SemanticMemory> {
    set i | 0 <= i < |rows| :: rows[i].memory
  }

  /** The positions among the first `n` rows whose similarity reaches the
      threshold, in row order. */
  function Matching(rows: seq<Scored>, minSimilarity: real, n: nat): (r: seq<nat>)
    requires n <= |rows|
    ensures Below(r, n)
  {
    if n == 0 then []
    else
      var p := Matching(rows, minSimilarity, n - 1);
      if rows[n - 1].similarity >= minSimilarity then p + [n - 1] else p
  }

  /** Every position in `ps` is below `n`. */
  predicate Below(ps: seq<nat>, n: nat) {
    forall k :: 0 <= k < |ps| ==> ps[k] < n
  }

  /** Positions into `rows` that all reach the threshold. */
  predicate AllPass(rows: seq<Scored>, ps: seq<nat>, minSimilarity: real) {
    forall k :: 0 <= k < |ps| ==> ps[k] < |rows| && rows[ps[k]].similarity >= minSimilarity
  }

  predicate Increasing(ps: seq<nat>) {
    forall k, l :: 0 <= k < l < |ps| ==> ps[k] < ps[l]
  }

  /** Every match reaches the threshold, and matches are in row order. */
  lemma {:induction false} MatchingPassInOrder(rows: seq<Scored>, minSimilarity: real, n: nat)
    requires n <= |rows|
    ensures AllPass(rows, Matching(rows, minSimilarity, n), minSimilarity)
    ensures Increasing(Matching(rows, minSimilarity, n))
  {
    if n > 0 {
      MatchingPassInOrder(rows, minSimilarity, n - 1);
      var p := Matching(rows, minSimilarity, n - 1);
      var r := Matching(rows, minSimilarity, n);
      if rows[n - 1].similarity >= minSimilarity {
        assert r == p + [n - 1];
        forall k | 0 <= k < |r| ensures r[k] < |rows| && rows[r[k]].similarity >= minSimilarity {
          if k < |p| {
            assert r[k] == p[k];
          }
        }
        forall k, l | 0 <= k < l < |r| ensures r[k] < r[l] {
          assert r[k] == p[k];
          if l < |p| {
            assert r[l] == p[l];
          }
        }
      } else {
        assert r == p;
      }
    }
  }

  /** Every row among the first `n` that reaches the threshold is a match. */
  lemma {:induction false} MatchingComplete(rows: seq<Scored>, minSimilarity: real, n: nat)
    requires n <= |rows|
    ensures forall j :: 0 <= j < n && rows[j].similarity >= minSimilarity ==>
      j in Matching(rows, minSimilarity, n)
  {
    if n > 0 {
      MatchingComplete(rows, minSimilarity, n - 1);
      var p := Matching(rows, minSimilarity, n - 1);
      assert forall j :: j in p ==> j in Matching(rows, minSimilarity, n);
    }
  }

  /** How many results the loop collects before it stops: the length test
      comes after the append, so a limit below 1 still yields one result. */
  function Cap(limit: int): (c: nat)
    ensures c >= 1 && c >= limit
    ensures limit >= 1 ==> c == limit
  {
    if limit < 1 then 1 else limit
  }

  /** The positions of the rows the filter loop returns: the first matching
      rows, at most Cap(limit) of them. */
  function Selected(rows: seq<Scored>, limit: int, minSimilarity: real): (r: seq<nat>)
    ensures |r| <= Cap(limit)
    ensures IsPrefixOf(r, Matching(rows, minSimilarity, |rows|))
  {
    var m := Matching(rows, minSimilarity, |rows|);
    if |m| <= Cap(limit) then m else m[..Cap(limit)]
  }

  predicate IsPrefixOf<T(==)>(p: seq<T>, s: seq<T>) {
    |p| <= |s| && s[..|p|] == p
  }

  /** Scanning more rows only extends the list of matches. */
  lemma {:induction false} MatchingPrefix(rows: seq<Scored>, minSimilarity: real, n: nat, n': nat)
    requires n <= n' <= |rows|
    ensures IsPrefixOf(Matching(rows, minSimilarity, n), Matching(rows, minSimilarity, n'))
    decreases n' - n
  {
    if n < n' {
      MatchingPrefix(rows, minSimilarity, n, n' - 1);
      var a := Matching(rows, minSimilarity, n);
      var b := Matching(rows, minSimilarity, n' - 1);
      var c := Matching(rows, minSimilarity, n');
      assert c[..|b|] == b by {
        if rows[n' - 1].similarity >= minSimilarity {
          assert c == b + [n' - 1];
        } else {
          assert c == b;
        }
      }
      calc {
        c[..|a|];
        c[..|b|][..|a|];
        b[..|a|];
        a;
      }
    }
  }

  /** Every returned row passes the threshold, and rows come back in the
      order the search ranked them. */
  lemma SelectedRowsPassInOrder(rows: seq<Scored>, limit: int, minSimilarity: real)
    ensures AllPass(rows, Selected(rows, limit, minSimilarity), minSimilarity)
    ensures Increasing(Selected(rows, limit, minSimilarity))
  {
    var s := Selected(rows, limit, minSimilarity);
    var m := Matching(rows, minSimilarity, |rows|);
    MatchingPassInOrder(rows, minSimilarity, |rows|);
    assert s == m[..|s|];
    assert forall k :: 0 <= k < |s| ==> s[k] == m[k] && m[k] < |rows|;
  }

  /** Fewer results than the cap means no row above the threshold was missed. */
  lemma ShortResultHasAllMatches(rows: seq<Scored>, limit: int, minSimilarity: real, j: nat)
    requires |Selected(rows, limit, minSimilarity)| < Cap(limit)
    requires j < |rows| && rows[j].similarity >= minSimilarity
    ensures j in Selected(rows, limit, minSimilarity)
  {
    MatchingComplete(rows, minSimilarity, |rows|);
  }

  /** The access counters of the rows' memories. */
  function Counts(rows: seq<Scored>): (cs: seq<int>)
    reads Objects(rows)
    ensures |cs| == |rows| && forall j :: 0 <= j < |rows| ==> cs[j] == rows[j].memory.accessCount
  {
    seq(|rows|, j requires 0 <= j < |rows| reads Objects(rows) => rows[j].memory.accessCount)
  }

  /** The last-access times of the rows' memories. */
  function Times(rows: seq<Scored>): (ts: seq<Option<Timestamp>>)
    reads Objects(rows)
    ensures |ts| == |rows| && forall j :: 0 <= j < |rows| ==> ts[j] == rows[j].memory.lastAccessedAt
  {
    seq(|rows|, j requires 0 <= j < |rows| reads Objects(rows) => rows[j].memory.lastAccessedAt)
  }

  /** Among the first `n` rows, those reaching the threshold have one more
      access than in `counts` and were last accessed at `now`; every other row
      still has its counter from `counts` and its time from `times`. */
  predicate Tracked(rows: seq<Scored>, counts: seq<int>, times: seq<Option<Timestamp>>,
                    n: nat, minSimilarity: real, now: Timestamp)
    requires |counts| == |rows| == |times|
    reads Objects(rows)
  {
    forall j :: 0 <= j < |rows| ==>
      if j < n && rows[j].similarity >= minSimilarity then
        rows[j].memory.accessCount == counts[j] + 1 && rows[j].memory.lastAccessedAt == Some(now)
      else
        rows[j].memory.accessCount == counts[j] && rows[j].memory.lastAccessedAt == times[j]
  }

  /** Counts the access to row `i`, which reaches the threshold. */
  method TouchRow(rows: seq<Scored>, i: nat, ghost counts: seq<int>, ghost times: seq<Option<Timestamp>>,
                  minSimilarity: real, now: Timestamp)
    requires Distinct(rows) && i < |rows| && rows[i].similarity >= minSimilarity
    requires |counts| == |rows| == |times|
    requires Tracked(rows, counts, times, i, minSimilarity, now)
    modifies rows[i].memory
    ensures Tracked(rows, counts, times, i + 1, minSimilarity, now)
  {
    rows[i].memory.Touch(now);
  }

  /** A row below the threshold is passed over untouched. */
  lemma TrackedSkip(rows: seq<Scored>, counts: seq<int>, times: seq<Option<Timestamp>>,
                    i: nat, minSimilarity: real, now: Timestamp)
    requires i < |rows| && |counts| == |rows| == |times|
    requires rows[i].similarity < minSimilarity
    requires Tracked(rows, counts, times, i, minSimilarity, now)
    ensures Tracked(rows, counts, times, i + 1, minSimilarity, now)
  {
  }

  /** The filter loop of `searchSemanticMemories` over the fetched rows: keeps
      rows whose similarity reaches `minSimilarity`, counts an access on each
      kept memory, and stops once it holds `limit` results. */
  method FilterRows(rows: seq<Scored>, limit: int, minSimilarity: real, now: Timestamp)
    returns (hits: seq<MemoryHit>)
    requires Distinct(rows)
    modifies Objects(rows)
    ensures hits == Hits(rows, Selected(rows, limit, minSimilarity))
    ensures forall j :: 0 <= j < |rows| ==>
      if j in Selected(rows, limit, minSimilarity) then
        rows[j].memory.accessCount == old(rows[j].memory.accessCount) + 1
        && rows[j].memory.lastAccessedAt == Some(now)
      else
        rows[j].memory.accessCount == old(rows[j].memory.accessCount)
        && rows[j].memory.lastAccessedAt == old(rows[j].memory.lastAccessedAt)
  {
    ghost var counts := Counts(rows);
    ghost var times := Times(rows);
    ghost var scanned;
    hits, scanned := ScanRows(rows, limit, minSimilarity, now, counts, times);
    TrackedSelected(rows, counts, times, limit, minSimilarity, now, scanned);
  }

  /** The loop itself; `scanned` is how many rows it looked at before the
      break or the end of the rows. */
  method ScanRows(rows: seq<Scored>, limit: int, minSimilarity: real, now: Timestamp,
                  ghost counts: seq<int>, ghost times: seq<Option<Timestamp>>)
    returns (hits: seq<MemoryHit>, ghost scanned: nat)
    requires Distinct(rows) && |counts| == |rows| == |times|
    requires Tracked(rows, counts, times, 0, minSimilarity, now)
    modifies Objects(rows)
    ensures scanned <= |rows|
    ensures Selected(rows, limit, minSimilarity) == Matching(rows, minSimilarity, scanned)
    ensures hits == Hits(rows, Matching(rows, minSimilarity, scanned))
    ensures Tracked(rows, counts, times, scanned, minSimilarity, now)
  {
    ghost var picked: seq<nat> := [];
    hits := [];
    var i: nat := 0;
    while i < |rows|
      invariant i <= |rows|
      invariant picked == Matching(rows, minSimilarity, i)
      invariant |picked| < Cap(limit)
      invariant hits == Hits(rows, picked)
      invariant Tracked(rows, counts, times, i, minSimilarity, now)
    {
      hits, picked := ScanRow(rows, i, hits, picked, counts, times, minSimilarity, now);
      if rows[i].similarity >= minSimilarity && |hits| >= limit {
        SelectedWhenFull(rows, limit, minSimilarity, i + 1);
        scanned := i + 1;
        return;
      }
      i := i + 1;
    }
    scanned := i;
  }

  /** One row of the loop: a row reaching the threshold has its access
      counted and its result appended; any other row is passed over. */
  method ScanRow(rows: seq<Scored>, i: nat, hits: seq<MemoryHit>, ghost picked: seq<nat>,
                 ghost counts: seq<int>, ghost times: seq<Option<Timestamp>>,
                 minSimilarity: real, now: Timestamp)
    returns (hits': seq<MemoryHit>, ghost picked': seq<nat>)
    requires Distinct(rows) && i < |rows|
    requires |counts| == |rows| == |times|
    requires picked == Matching(rows, minSimilarity, i) && hits == Hits(rows, picked)
    requires Tracked(rows, counts, times, i, minSimilarity, now)
    modifies rows[i].memory
    ensures picked' == Matching(rows, minSimilarity, i + 1) && hits' == Hits(rows, picked')
    ensures |hits'| == |picked'|
    ensures |picked'| == if rows[i].similarity >= minSimilarity then |picked| + 1 else |picked|
    ensures Tracked(rows, counts, times, i + 1, minSimilarity, now)
  {
    if rows[i].similarity >= minSimilarity {
      TouchRow(rows, i, counts, times, minSimilarity, now);
      HitsAppend(rows, picked, i);
      hits' := hits + [Hit(rows[i])];
      picked' := picked + [i];
    } else {
      TrackedSkip(rows, counts, times, i, minSimilarity, now);
      hits', picked' := hits, picked;
    }
  }

  /** Once the rows scanned are exactly those whose matches were selected,
      the selected rows are the ones with a counted access. */
  lemma TrackedSelected(rows: seq<Scored>, counts: seq<int>, times: seq<Option<Timestamp>>,
                        limit: int, minSimilarity: real, now: Timestamp, n: nat)
    requires n <= |rows| && |counts| == |rows| == |times|
    requires Selected(rows, limit, minSimilarity) == Matching(rows, minSimilarity, n)
    requires Tracked(rows, counts, times, n, minSimilarity, now)
    ensures forall j :: 0 <= j < |rows| ==>
      if j in Selected(rows, limit, minSimilarity) then
        rows[j].memory.accessCount == counts[j] + 1 && rows[j].memory.lastAccessedAt == Some(now)
      else
        rows[j].memory.accessCount == counts[j] && rows[j].memory.lastAccessedAt == times[j]
  {
    MatchingMembers(rows, minSimilarity, n);
  }

  /** A row is among the matches of the first `n` rows exactly when it is one
      of those rows and reaches the threshold. */
  lemma MatchingMembers(rows: seq<Scored>, minSimilarity: real, n: nat)
    requires n <= |rows|
    ensures forall j :: 0 <= j < |rows| ==>
      (j in Matching(rows, minSimilarity, n) <==> j < n && rows[j].similarity >= minSimilarity)
  {
    MatchingPassInOrder(rows, minSimilarity, n);
    MatchingComplete(rows, minSimilarity, n);
  }

  /** The results for the rows at positions `ps`, in that order. */
  function Hits(rows: seq<Scored>, ps: seq<nat>): (hs: seq<MemoryHit>)
    requires Below(ps, |rows|)
    ensures |hs| == |ps|
  {
    if ps == [] then []
    else Hits(rows, ps[..|ps| - 1]) + [Hit(rows[ps[|ps| - 1]])]
  }

  /** The k-th result describes the row at the k-th position. */
  lemma {:induction false} HitsAt(rows: seq<Scored>, ps: seq<nat>, k: nat)
    requires Below(ps, |rows|) && k < |ps|
    ensures Hits(rows, ps)[k] == Hit(rows[ps[k]])
  {
    if k < |ps| - 1 {
      HitsAt(rows, ps[..|ps| - 1], k);
    }
  }

  lemma HitsAppend(rows: seq<Scored>, ps: seq<nat>, i: nat)
    requires Below(ps, |rows|) && i < |rows|
    ensures Hits(rows, ps + [i]) == Hits(rows, ps) + [Hit(rows[i])]
  {
    assert (ps + [i])[..|ps|] == ps;
  }

  /** Once the first `n` rows hold Cap(limit) matches, those are the result. */
  lemma SelectedWhenFull(rows: seq<Scored>, limit: int, minSimilarity: real, n: nat)
    requires n <= |rows| && |Matching(rows, minSimilarity, n)| == Cap(limit)
    ensures Selected(rows, limit, minSimilarity) == Matching(rows, minSimilarity, n)
  {
    MatchingPrefix(rows, minSimilarity, n, |rows|);
  }

  /** The rows whose importance reaches `minImportance`, in order. */
  function Eligible(scored: seq<Scored>, minImportance: real): (r: seq<Scored>)
    ensures forall k :: 0 <= k < |r| ==> r[k] in scored && r[k].memory.importanceScore >= minImportance
    ensures forall k :: 0 <= k < |scored| && scored[k].memory.importanceScore >= minImportance ==>
      scored[k] in r
    ensures |r| <= |scored|
  {
    if scored == [] then []
    else
      var rest := Eligible(scored[1..], minImportance);
      if scored[0].memory.importanceScore >= minImportance then [scored[0]] + rest else rest
  }

  lemma {:induction false} EligibleDistinct(scored: seq<Scored>, minImportance: real)
    requires Distinct(scored)
    ensures Distinct(Eligible(scored, minImportance))
  {
    if scored != [] {
      var tail := scored[1..];
      assert Distinct(tail) by {
        forall i, j | 0 <= i < j < |tail| ensures tail[i].memory != tail[j].memory {
          assert tail[i] == scored[i + 1] && tail[j] == scored[j + 1];
        }
      }
      EligibleDistinct(tail, minImportance);
      var rest := Eligible(tail, minImportance);
      forall k | 0 <= k < |rest| ensures rest[k].memory != scored[0].memory {
        var i :| 0 <= i < |tail| && tail[i] == rest[k];
        assert tail[i] == scored[i + 1];
      }
    }
  }

  /** What the SQL query returns: eligible rows, nearest first, at most
      `limit * 2` of them; None when the database rejects a negative LIMIT. */
  function Fetch(scored: seq<Scored>, minImportance: real, limit: int): (r: Option<seq<Scored>>)
    ensures limit < 0 <==> r.None?
    ensures r.Some? ==> |r.value| <= 2 * limit
    ensures r.Some? ==> IsPrefixOf(r.value, Eligible(scored, minImportance))
  {
    if limit < 0 then None
    else
      var e := Eligible(scored, minImportance);
      Some(if |e| <= 2 * limit then e else e[..2 * limit])
  }

  lemma FetchDistinct(scored: seq<Scored>, minImportance: real, limit: int)
    requires Distinct(scored) && limit >= 0
    ensures Distinct(Fetch(scored, minImportance, limit).value)
    ensures Objects(Fetch(scored, minImportance, limit).value) <= Objects(scored)
  {
    EligibleDistinct(scored, minImportance);
    var e := Eligible(scored, minImportance);
    var f := Fetch(scored, minImportance, limit).value;
    forall o | o in Objects(f) ensures o in Objects(scored) {
      var i :| 0 <= i < |f| && f[i].memory == o;
      assert f[i] == e[i];
      var j :| 0 <= j < |scored| && scored[j] == e[i];
    }
  }

  /** `searchSemanticMemories`. `scored` is every memory of the user with its
      similarity to the query, nearest first; `embeddingAvailable` says
      whether the query embedding can be created. Returns the hits and whether
      an embedding was requested. */
  method SearchSemanticMemories(scored: seq<Scored>, embeddingAvailable: bool, limit: int,
                                minImportance: real, minSimilarity: real, now: Timestamp)
    returns (hits: seq<MemoryHit>, embedded: bool)
    requires Distinct(scored)
    modifies Objects(scored)
    ensures scored == [] ==> hits == [] && !embedded
    ensures scored != [] ==> embedded
    ensures !embeddingAvailable || limit < 0 ==> hits == []
    ensures scored != [] && embeddingAvailable && limit >= 0 ==>
      var rows := Fetch(scored, minImportance, limit).value;
      hits == Hits(rows, Selected(rows, limit, minSimilarity))
    ensures scored != [] && embeddingAvailable && limit >= 0 ==>
      var rows := Fetch(scored, minImportance, limit).value;
      forall j :: 0 <= j < |rows| ==>
        if j in Selected(rows, limit, minSimilarity) then
          rows[j].memory.accessCount == old(rows[j].memory.accessCount) + 1
          && rows[j].memory.lastAccessedAt == Some(now)
        else
          rows[j].memory.accessCount == old(rows[j].memory.accessCount)
          && rows[j].memory.lastAccessedAt == old(rows[j].memory.lastAccessedAt)
    ensures scored != [] && embeddingAvailable && limit >= 0 ==>
      var fetched := Objects(Fetch(scored, minImportance, limit).value);
      forall j :: 0 <= j < |scored| && scored[j].memory !in fetched ==>
        scored[j].memory.accessCount == old(scored[j].memory.accessCount)
        && scored[j].memory.lastAccessedAt == old(scored[j].memory.lastAccessedAt)
    ensures scored == [] || !embeddingAvailable || limit < 0 ==>
      forall j :: 0 <= j < |scored| ==>
        scored[j].memory.accessCount == old(scored[j].memory.accessCount)
        && scored[j].memory.lastAccessedAt == old(scored[j].memory.lastAccessedAt)
  {
    if scored == [] {
      return [], false;
    }
    embedded := true;
    if !embeddingAvailable {
      return [], embedded;
    }
    var fetched := Fetch(scored, minImportance, limit);
    if fetched.None? {
      return [], embedded;
    }
    FetchDistinct(scored, minImportance, limit);
    hits := FilterRows(fetched.value, limit, minSimilarity, now);
  }

  // -------------------------------------------------------------- summary

  /** One message handed to the summary: its "role" and "content" keys,
      None when the key is absent. */
  datatype TranscriptEntry = TranscriptEntry(role: Option<string>, content: Option<string>)

  /** The message's line: "role: content", role defaulting to "user" and
      content to the empty string. */
  function Line(m: TranscriptEntry): (l: string)
    ensures IsPrefix(m.role.GetOr("user") + ": ", l)
    ensures l[|m.role.GetOr("user")| + 2..] == m.content.GetOr("")
  {
    m.role.GetOr("user") + ": " + m.content.GetOr("")
  }

  /** The last five messages (all of them when there are fewer). */
  function LastFive(messages: seq<TranscriptEntry>): (r: seq<TranscriptEntry>)
    ensures |r| == if |messages| < 5 then |messages| else 5
    ensures IsSuffixOf(r, messages)
  {
    if |messages| <= 5 then messages else messages[|messages| - 5..]
  }

  predicate IsSuffixOf<T(==)>(p: seq<T>, s: seq<T>) {
    |p| <= |s| && s[|s| - |p|..] == p
  }

  function Lines(ms: seq<TranscriptEntry>): (ls: seq<string>)
    ensures |ls| == |ms| && forall k :: 0 <= k < |ms| ==> ls[k] == Line(ms[k])
  {
    seq(|ms|, k requires 0 <= k < |ms| => Line(ms[k]))
  }

  /** The conversation text of `saveConversationSummary`: one line per
      message among the last five, joined by newlines. */
  function Transcript(messages: seq<TranscriptEntry>): (t: string)
    ensures messages == [] <==> t == ""
    ensures messages != [] ==> IsSuffix(Line(messages[|messages| - 1]), t)
  {
    var ls := Lines(LastFive(messages));
    if ls == [] then Join(ls, "\n")
    else
      JoinEndsWithLast(ls, "\n");
      assert LastFive(messages)[|ls| - 1] == messages[|messages| - 1];
      Join(ls, "\n")
  }

  lemma {:induction false} JoinAppend(ws: seq<string>, w: string, sep: string)
    requires ws != []
    ensures Join(ws + [w], sep) == Join(ws, sep) + sep + w
  {
    if |ws| == 1 {
      assert (ws + [w])[1..] == [w];
    } else {
      assert (ws + [w])[1..] == ws[1..] + [w];
      JoinAppend(ws[1..], w, sep);
    }
  }

  /** Messages older than the last five do not reach the summary. */
  lemma TranscriptIgnoresOlder(older: seq<TranscriptEntry>, recent: seq<TranscriptEntry>)
    requires |recent| == 5
    ensures Transcript(older + recent) == Transcript(recent)
  {
    assert (older + recent)[|older + recent| - 5..] == recent;
  }

  /** While there are at most five messages, each new one adds one line. */
  lemma TranscriptGrowsByALine(ms: seq<TranscriptEntry>, m: TranscriptEntry)
    requires 1 <= |ms| < 5
    ensures Transcript(ms + [m]) == Transcript(ms) + "\n" + Line(m)
  {
    assert Lines(ms + [m]) == Lines(ms) + [Line(m)];
    JoinAppend(Lines(ms), Line(m), "\n");
  }

  /** `_summarizeConversation` once the model has answered: the stripped reply
      cut to 400 characters, or, when the call failed (`reply` is None), the
      first 200 characters of the transcript followed by "...". */
  function Summary(content: string, reply: Option<string>): (s: string)
    ensures reply.Some? ==> |s| <= 400 && IsPrefix(s, Strip(reply.value))
    ensures reply.Some? && |Strip(reply.value)| <= 400 ==> s == Strip(reply.value)
    ensures reply.None? ==>
      s == (if |content| <= 200 then content else content[..200]) + "..."
  {
    match reply
    case Some(r) =>
      var t := Strip(r);
      if |t| > 400 then t[..400] else t
    case None => (if |content| <= 200 then content else content[..200]) + "..."
  }

  /** A long reply keeps exactly its first 400 characters. */
  lemma LongSummaryIsCut(content: string, r: string)
    requires |Strip(r)| > 400
    ensures |Summary(content, Some(r))| == 400
  {
  }

  /** The emotional context stored with a conversation summary. */
  function SummaryContext(emotionState: string, themes: seq<string>): (c: map<string, JsonValue>)
    ensures c.Keys == {"emotion", "themes"}
    ensures c["emotion"] == JStr(emotionState)
    ensures c["themes"].JArray? && |c["themes"].items| == |themes|
    ensures forall k :: 0 <= k < |themes| ==> c["themes"].items[k] == JStr(themes[k])
  {
    map["emotion" := JStr(emotionState),
        "themes" := JArray(seq(|themes|, k requires 0 <= k < |themes| => JStr(themes[k])))]
  }

  /** `saveConversationSummary`: summarises the last five messages (the model's
      answer is `summaryReply`) and saves the summary as a "conversation"
      memory whose importance comes from the emotion and the themes. Any
      failure yields None. */
  method SaveConversationSummary(userId: Uuid, conversationId: Uuid,
                                 messages: seq<TranscriptEntry>, emotionState: string,
                                 themes: seq<string>, summaryReply: Option<string>,
                                 embeddingAvailable: bool, freshId: Uuid, now: Timestamp)
    returns (r: Option<SemanticMemory>)
    ensures !embeddingAvailable ==> r == None
    ensures embeddingAvailable ==> r.Some? && fresh(r.value)
    ensures r.Some? ==>
      var m := r.value;
      m.id == freshId && m.userId == userId && m.conversationId == Some(conversationId)
      && m.content == Summary(Transcript(messages), summaryReply)
      && m.memoryType == "conversation"
      && m.emotionalContext == SummaryContext(emotionState, themes)
      && m.tags == themes
      && m.importanceScore ==
           ImportanceScore(5 + EmotionWeight(emotionState) + ThemeWeight(themes))
      && m.accessCount == 0
  {
    var summary := Summary(Transcript(messages), summaryReply);
    var tenths := CalculateImportance(emotionState, themes);
    r := StoreSummary(userId, conversationId, summary, SummaryContext(emotionState, themes),
                      themes, tenths, embeddingAvailable, freshId, now);
  }

  /** The save step of `saveConversationSummary`, once the summary text, its
      emotional context and its importance are known. */
  method StoreSummary(userId: Uuid, conversationId: Uuid, summary: string,
                      context: map<string, JsonValue>, themes: seq<string>, tenths: int,
                      embeddingAvailable: bool, freshId: Uuid, now: Timestamp)
    returns (r: Option<SemanticMemory>)
    ensures !embeddingAvailable ==> r == None
    ensures embeddingAvailable ==> r.Some? && fresh(r.value)
    ensures r.Some? ==>
      var m := r.value;
      m.id == freshId && m.userId == userId && m.conversationId == Some(conversationId)
      && m.content == summary && m.memoryType == "conversation"
      && m.emotionalContext == context && m.tags == themes
      && m.importanceScore == ImportanceScore(tenths) && m.accessCount == 0
  {
    var saved := SaveSemanticMemory(userId, Some(conversationId), summary, "conversation",
                                    Some(context), Some(themes),
                                    ImportanceScore(tenths), embeddingAvailable, freshId, now);
    r := if saved.Ok? then Some(saved.value) else None;
  }
}
