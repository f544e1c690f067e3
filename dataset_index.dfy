/** The dataset indexer: every dialogue turn of the dataset is filed under
    the property key of its emotion label, in one pass, so that the sampler
    can later draw lines of one emotion class. */
module DatasetIndex {
  import opened PropertyKeys

  /** One dataset record: the utterances of a multi-turn dialogue and, in
      parallel, the emotion label of each turn. */
  datatype Row = Row(dialog: seq<string>, emotion: seq<int>)

  /** A turn as the indexer sees it: the key it is filed under and its text. */
  datatype Turn = Turn(key: string, utterance: string)

  /** Emotion class key to the utterances of that class, in dataset order. */
  type EmotionIndex = map<string, seq<string>>

  /** `entry.row.emotion[index]`: `undefined` past the end of the labels. */
  function EmotionAt(r: Row, index: nat): (e: Option<int>)
    ensures e.Some? <==> index < |r.emotion|
  {
    if index < |r.emotion| then Some(r.emotion[index]) else None
  }

  function RowTurns(r: Row): (ts: seq<Turn>)
    ensures |ts| == |r.dialog|
  {
    seq(|r.dialog|, i requires 0 <= i < |r.dialog| => Turn(LabelKey(EmotionAt(r, i)), r.dialog[i]))
  }

  /** All turns of the dataset, record after record. */
  function Turns(rows: seq<Row>): seq<Turn>
  {
    if rows == [] then [] else Turns(rows[..|rows| - 1]) + RowTurns(rows[|rows| - 1])
  }

  /** Number of turns in the dataset. */
  function TotalTurns(rows: seq<Row>): nat
  {
    if rows == [] then 0 else TotalTurns(rows[..|rows| - 1]) + |rows[|rows| - 1].dialog|
  }

  /** Files one turn: creates the pool on first use, then appends. */
  function AddTurn(m: EmotionIndex, t: Turn): EmotionIndex
  {
    var pool := if t.key in m then m[t.key] else [];
    m[t.key := pool + [t.utterance]]
  }

  /** The index built from a sequence of turns, one turn after another. */
  function Group(ts: seq<Turn>): EmotionIndex
  {
    if ts == [] then map[] else AddTurn(Group(ts[..|ts| - 1]), ts[|ts| - 1])
  }

  /** What `preprocessDataset` returns for a dataset. */
  function Index(rows: seq<Row>): EmotionIndex
  {
    Group(Turns(rows))
  }

  /** Reference definition of a pool: the utterances filed under `key`, in order. */
  function Utterances(ts: seq<Turn>, key: string): seq<string>
  {
    if ts == [] then []
    else Utterances(ts[..|ts| - 1], key) + (if ts[|ts| - 1].key == key then [ts[|ts| - 1].utterance] else [])
  }

  ghost predicate HasKey(ts: seq<Turn>, key: string) {
    exists i :: 0 <= i < |ts| && ts[i].key == key
  }

  lemma GroupSnoc(ts: seq<Turn>, t: Turn)
    ensures Group(ts + [t]) == AddTurn(Group(ts), t)
  {
    assert (ts + [t])[..|ts|] == ts;
  }

  lemma TurnsSnoc(rows: seq<Row>, r: Row)
    ensures Turns(rows + [r]) == Turns(rows) + RowTurns(r)
  {
    assert (rows + [r])[..|rows|] == rows;
  }

  /** Grouping files exactly the turns that carry a key, in input order, and
      never leaves an empty pool behind. */
  lemma {:induction false} GroupPools(ts: seq<Turn>, key: string)
    ensures key in Group(ts) <==> HasKey(ts, key)
    ensures key in Group(ts) ==> Group(ts)[key] == Utterances(ts, key) && Group(ts)[key] != []
    ensures key !in Group(ts) ==> Utterances(ts, key) == []
    decreases |ts|
  {
    if ts != [] {
      var init, last := ts[..|ts| - 1], ts[|ts| - 1];
      GroupPools(init, key);
      if last.key == key {
        assert ts[|ts| - 1].key == key;
      }
      if HasKey(ts, key) && last.key != key {
        var i :| 0 <= i < |ts| && ts[i].key == key;
        assert init[i].key == key;
      }
      if HasKey(init, key) {
        var i :| 0 <= i < |init| && init[i].key == key;
        assert ts[i].key == key;
      }
    }
  }

  /** The utterance of every turn is in the pool of that turn's key. */
  lemma {:induction false} TurnInItsPool(ts: seq<Turn>, i: nat)
    requires i < |ts|
    ensures ts[i].key in Group(ts) && ts[i].utterance in Group(ts)[ts[i].key]
    decreases |ts|
  {
    GroupPools(ts, ts[i].key);
    UtteranceFiled(ts, i);
  }

  lemma {:induction false} UtteranceFiled(ts: seq<Turn>, i: nat)
    requires i < |ts|
    ensures ts[i].utterance in Utterances(ts, ts[i].key)
    decreases |ts|
  {
    if i < |ts| - 1 {
      UtteranceFiled(ts[..|ts| - 1], i);
    }
  }

  /** Sum of the pool sizes over a set of keys. */
  ghost function SumOver(m: EmotionIndex, keys: set<string>): nat
    requires keys <= m.Keys
    decreases keys
  {
    if keys == {} then 0 else var k :| k in keys; |m[k]| + SumOver(m, keys - {k})
  }

  /** Total number of utterances held by the index. */
  ghost function PoolSizes(m: EmotionIndex): nat
  {
    SumOver(m, m.Keys)
  }

  lemma SumOverPick(m: EmotionIndex, keys: set<string>, k: string)
    requires keys <= m.Keys && k in keys
    ensures SumOver(m, keys) == |m[k]| + SumOver(m, keys - {k})
    decreases keys
  {
    var j :| j in keys && SumOver(m, keys) == |m[j]| + SumOver(m, keys - {j});
    if j != k {
      SumOverPick(m, keys - {j}, k);
      SumOverPick(m, keys - {k}, j);
      assert keys - {j} - {k} == keys - {k} - {j};
    }
  }

  lemma SumOverAgree(m1: EmotionIndex, m2: EmotionIndex, keys: set<string>)
    requires keys <= m1.Keys && keys <= m2.Keys
    requires forall k :: k in keys ==> m1[k] == m2[k]
    ensures SumOver(m1, keys) == SumOver(m2, keys)
    decreases keys
  {
    if keys != {} {
      var k :| k in keys && SumOver(m1, keys) == |m1[k]| + SumOver(m1, keys - {k});
      SumOverPick(m2, keys, k);
      SumOverAgree(m1, m2, keys - {k});
    }
  }

  /** Filing one turn adds exactly one utterance to the index. */
  lemma AddTurnSize(m: EmotionIndex, t: Turn)
    ensures PoolSizes(AddTurn(m, t)) == PoolSizes(m) + 1
  {
    var m' := AddTurn(m, t);
    assert m'.Keys == m.Keys + {t.key};
    SumOverPick(m', m'.Keys, t.key);
    SumOverAgree(m, m', m.Keys - {t.key});
    if t.key in m {
      assert m'.Keys == m.Keys;
      SumOverPick(m, m.Keys, t.key);
      assert |m'[t.key]| == |m[t.key]| + 1;
    } else {
      assert m'.Keys - {t.key} == m.Keys - {t.key} == m.Keys;
    }
  }

  lemma {:induction false} GroupSize(ts: seq<Turn>)
    ensures PoolSizes(Group(ts)) == |ts|
    decreases |ts|
  {
    if ts != [] {
      GroupSize(ts[..|ts| - 1]);
      AddTurnSize(Group(ts[..|ts| - 1]), ts[|ts| - 1]);
    }
  }

  lemma {:induction false} TurnsLength(rows: seq<Row>)
    ensures |Turns(rows)| == TotalTurns(rows)
    decreases |rows|
  {
    if rows != [] {
      TurnsLength(rows[..|rows| - 1]);
    }
  }

  /** The pool sizes of the index sum to the number of turns in the dataset. */
  lemma IndexSize(rows: seq<Row>)
    ensures PoolSizes(Index(rows)) == TotalTurns(rows)
  {
    GroupSize(Turns(rows));
    TurnsLength(rows);
  }

  /** No key of the index maps to an empty pool, and every pool holds the
      utterances of its key in dataset order. */
  lemma IndexPools(rows: seq<Row>, key: string)
    requires key in Index(rows)
    ensures Index(rows)[key] != [] && Index(rows)[key] == Utterances(Turns(rows), key)
  {
    GroupPools(Turns(rows), key);
  }

  /** Turn `i` of record `j` is filed under the key of its own label. */
  lemma {:induction false} RowTurnFiled(rows: seq<Row>, j: nat, i: nat)
    requires j < |rows| && i < |rows[j].dialog|
    ensures var key := LabelKey(EmotionAt(rows[j], i));
      key in Index(rows) && rows[j].dialog[i] in Index(rows)[key]
  {
    var ts := Turns(rows);
    var before := Turns(rows[..j]);
    TurnsPrefix(rows, j + 1);
    TurnsSnoc(rows[..j], rows[j]);
    assert rows[..j + 1] == rows[..j] + [rows[j]];
    TurnsLength(rows[..j + 1]);
    TurnsLength(rows);
    assert ts[|before| + i] == RowTurns(rows[j])[i];
    TurnInItsPool(ts, |before| + i);
  }

  /** The turns of a prefix of the dataset are a prefix of its turns. */
  lemma {:induction false} TurnsPrefix(rows: seq<Row>, n: nat)
    requires n <= |rows|
    ensures |Turns(rows[..n])| <= |Turns(rows)| && Turns(rows)[..|Turns(rows[..n])|] == Turns(rows[..n])
    decreases |rows|
  {
    if n < |rows| {
      var init := rows[..|rows| - 1];
      TurnsPrefix(init, n);
      assert init[..n] == rows[..n];
    } else {
      assert rows[..n] == rows;
    }
  }

  /** A missing label is filed under "undefined"; if every turn has a label,
      the index has no "undefined" pool. */
  lemma FullyLabelledHasNoUndefined(rows: seq<Row>)
    requires forall j :: 0 <= j < |rows| ==> |rows[j].dialog| <= |rows[j].emotion|
    ensures UndefinedKey !in Index(rows)
  {
    LabelledTurns(rows);
    GroupPools(Turns(rows), UndefinedKey);
  }

  lemma {:induction false} LabelledTurns(rows: seq<Row>)
    requires forall j :: 0 <= j < |rows| ==> |rows[j].dialog| <= |rows[j].emotion|
    ensures forall i :: 0 <= i < |Turns(rows)| ==> Turns(rows)[i].key != UndefinedKey
    decreases |rows|
  {
    if rows != [] {
      var init, last := rows[..|rows| - 1], rows[|rows| - 1];
      LabelledTurns(init);
      var ts := Turns(rows);
      forall i | 0 <= i < |ts| ensures ts[i].key != UndefinedKey {
        if i < |Turns(init)| {
          assert ts[i] == Turns(init)[i];
        } else {
          assert ts[i] == RowTurns(last)[i - |Turns(init)|];
        }
      }
    }
  }

  /** The `forEach` callback of `preprocessDataset` for turn `index` of a
      record: create the pool of the turn's label on first use, then push the
      utterance onto it. */
  method FileTurn(groupedByEmotion: EmotionIndex, entry: Row, index: nat, dialog: string)
    returns (grouped: EmotionIndex)
    ensures var emotion := LabelKey(EmotionAt(entry, index));
      && grouped.Keys == groupedByEmotion.Keys + {emotion}
      && grouped[emotion] == (if emotion in groupedByEmotion then groupedByEmotion[emotion] else []) + [dialog]
      && forall k :: k in groupedByEmotion && k != emotion ==> grouped[k] == groupedByEmotion[k]
  {
    var emotion := LabelKey(EmotionAt(entry, index));
    grouped := groupedByEmotion;
    if emotion !in grouped {
      grouped := grouped[emotion := []];
    }
    grouped := grouped[emotion := grouped[emotion] + [dialog]];
  }

  lemma FiledIsAddTurn(m: EmotionIndex, m': EmotionIndex, t: Turn)
    requires m'.Keys == m.Keys + {t.key}
    requires m'[t.key] == (if t.key in m then m[t.key] else []) + [t.utterance]
    requires forall k :: k in m && k != t.key ==> m'[k] == m[k]
    ensures m' == AddTurn(m, t)
  {
  }

  /** One step of the outer loop: record `r` follows the records before it. */
  lemma FileRowStep(rows: seq<Row>, r: nat)
    requires r < |rows|
    ensures Turns(rows[..r + 1]) == Turns(rows[..r]) + RowTurns(rows[r])
  {
    assert rows[..r + 1] == rows[..r] + [rows[r]];
    TurnsSnoc(rows[..r], rows[r]);
  }

  /** The body of `preprocessDataset`: a nested loop over records and turns
      that files each turn under its label's key. */
  method PreprocessDataset(rawData: seq<Row>) returns (groupedByEmotion: EmotionIndex)
    ensures groupedByEmotion == Index(rawData)
  {
    groupedByEmotion := map[];
    ghost var filed: seq<Turn> := [];
    var r := 0;
    while r < |rawData|
      invariant 0 <= r <= |rawData|
      invariant filed == Turns(rawData[..r])
      invariant groupedByEmotion == Group(filed)
    {
      var entry := rawData[r];
      ghost var before := filed;
      var index := 0;
      while index < |entry.dialog|
        invariant 0 <= index <= |entry.dialog|
        invariant filed == before + RowTurns(entry)[..index]
        invariant groupedByEmotion == Group(filed)
      {
        var dialog := entry.dialog[index];
        ghost var turn := RowTurns(entry)[index];
        ghost var previous := groupedByEmotion;
        groupedByEmotion := FileTurn(groupedByEmotion, entry, index, dialog);
        FiledIsAddTurn(previous, groupedByEmotion, turn);
        GroupSnoc(filed, turn);
        filed := filed + [turn];
        assert RowTurns(entry)[..index + 1] == RowTurns(entry)[..index] + [RowTurns(entry)[index]];
        index := index + 1;
      }
      assert RowTurns(entry)[..index] == RowTurns(entry);
      FileRowStep(rawData, r);
      r := r + 1;
    }
    assert rawData[..r] == rawData;
  }
}
