/**
 * Small list rules of the app: removing a spellbook entry, the level history and the level it
 * displays, and when the correction card is shown.
 */
module Bookkeeping {
  import opened Types

  // ---------------------------------------------------------------------------------------
  // Vocabulary removal: `prev.filter(v => v.id !== id)`.
  // ---------------------------------------------------------------------------------------

  function RemoveById(items: seq<VocabularyItem>, id: string): (r: seq<VocabularyItem>)
    ensures forall v :: v in r <==> v in items && v.id != id
    ensures |r| <= |items|
  {
    if items == [] then []
    else (if items[0].id != id then [items[0]] else []) + RemoveById(items[1..], id)
  }

  /** Removing from a concatenation removes from each part and keeps the parts in order. */
  lemma {:induction false} RemoveByIdConcat(a: seq<VocabularyItem>, b: seq<VocabularyItem>, id: string)
    ensures RemoveById(a + b, id) == RemoveById(a, id) + RemoveById(b, id)
  {
    if a == [] {
      assert a + b == b;
    } else {
      assert (a + b)[0] == a[0] && (a + b)[1..] == a[1..] + b;
      RemoveByIdConcat(a[1..], b, id);
    }
  }

  /** On one item: it goes exactly when its id is the one removed. */
  lemma RemoveByIdSingle(v: VocabularyItem, id: string)
    ensures RemoveById([v], id) == if v.id == id then [] else [v]
  {
  }

  /** When no item carries the id, the list comes back unchanged, so removing twice is removing once. */
  lemma {:induction false} RemoveByIdAbsent(items: seq<VocabularyItem>, id: string)
    requires forall i :: 0 <= i < |items| ==> items[i].id != id
    ensures RemoveById(items, id) == items
  {
    if items != [] {
      RemoveByIdAbsent(items[1..], id);
    }
  }

  lemma RemoveByIdIdempotent(items: seq<VocabularyItem>, id: string)
    ensures RemoveById(RemoveById(items, id), id) == RemoveById(items, id)
  {
    var r := RemoveById(items, id);
    assert forall i :: 0 <= i < |r| ==> r[i] in r;
    RemoveByIdAbsent(r, id);
  }

  /** The list shrinks by exactly the number of items carrying the id. */
  function CountId(items: seq<VocabularyItem>, id: string): nat
  {
    if items == [] then 0 else (if items[0].id == id then 1 else 0) + CountId(items[1..], id)
  }

  lemma {:induction false} RemoveByIdLength(items: seq<VocabularyItem>, id: string)
    ensures |RemoveById(items, id)| == |items| - CountId(items, id)
  {
    if items != [] {
      RemoveByIdLength(items[1..], id);
    }
  }

  // ---------------------------------------------------------------------------------------
  // Level history: `[result, ...prev]` and `levelHistory[0]?.level || 'Unranked'`.
  // ---------------------------------------------------------------------------------------

  function PrependResult(history: seq<LevelResult>, result: LevelResult): (r: seq<LevelResult>)
    ensures |r| == |history| + 1 && r[0] == result && r[1..] == history
  {
    [result] + history
  }

  const Unranked: string := "Unranked"

  /** The level shown on the badge: the newest entry's level, falling back when it is missing or empty. */
  function CurrentLevel(history: seq<LevelResult>): (r: string)
    ensures r != ""
    ensures r == Unranked || (history != [] && r == history[0].level)
    ensures history != [] && history[0].level != "" ==> r == history[0].level
  {
    if history != [] && history[0].level != "" then history[0].level else Unranked
  }

  /**
   * After a new result is prepended, the badge shows that result's level (or the fallback when
   * it is empty), whatever the earlier history held.
   */
  lemma CurrentLevelAfterPrepend(history: seq<LevelResult>, result: LevelResult)
    ensures CurrentLevel(PrependResult(history, result)) == if result.level != "" then result.level else Unranked
  {
  }

  // ---------------------------------------------------------------------------------------
  // The correction gate of `analyzeUserMistake` and the trigger in `addMessage`.
  // ---------------------------------------------------------------------------------------

  /** The correction to show after analysing a message: only one that actually changes the text. */
  function ShownCorrection(analysis: Option<Correction>): (shown: Option<Correction>)
    ensures shown.Some? <==> analysis.Some? && analysis.value.corrected != analysis.value.original
    ensures shown.Some? ==> shown == analysis
  {
    match analysis
    case Some(c) => if c.corrected != c.original then analysis else None
    case None => None
  }

  /** `addMessage` sends a message for analysis only when the user wrote it outside the level test. */
  function ShouldAnalyze(role: Role, view: ViewType): (b: bool)
    ensures b ==> role == User
    ensures role == User ==> (b <==> view != LevelTest)
  {
    role == User && view != LevelTest
  }
}
