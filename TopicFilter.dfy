/**
 * The topic browser's list: keep the topics of the chosen level (all of them for 'ALL'), then
 * those whose lower-cased title or description contains the lower-cased query (all of them when
 * the query is blank after trimming), then sort by difficulty rank and, within a rank, by title.
 */
module TopicFilter {
  import opened Types

  /** `DIFFICULTY_ORDER`. */
  function Rank(d: DifficultyLevel): (r: int)
    ensures 1 <= r <= 5
  {
    match d
    case A1 => 1
    case A2 => 2
    case B1 => 3
    case B2 => 4
    case C1 => 5
  }

  /** The ranks follow the CEFR ladder and tell the levels apart. */
  lemma RankOrdersLevels()
    ensures Rank(A1) < Rank(A2) < Rank(B1) < Rank(B2) < Rank(C1)
    ensures forall a: DifficultyLevel, b: DifficultyLevel :: Rank(a) == Rank(b) ==> a == b
  {
  }

  /** The level selector: a level, or 'ALL'. */
  datatype LevelFilter = All | Only(level: DifficultyLevel)

  // ---------------------------------------------------------------------------------------
  // String helpers: toLowerCase, trim and includes.
  // ---------------------------------------------------------------------------------------

  /** Lowering of one character; only the letters A to Z change. */
  function LowerChar(c: char): char
  {
    if 'A' <= c <= 'Z' then (c as int + 32) as char else c
  }

  function Lower(s: string): (r: string)
    ensures |r| == |s|
    ensures forall i :: 0 <= i < |s| ==> r[i] == LowerChar(s[i])
  {
    if s == [] then [] else [LowerChar(s[0])] + Lower(s[1..])
  }

  /** The characters String.prototype.trim removes: white space and line terminators. */
  predicate IsSpace(c: char)
  {
    || c == '\t' || c == '\n' || c == '\U{000B}' || c == '\U{000C}' || c == '\r' || c == ' '
    || c == '\U{00A0}' || c == '\U{1680}' || ('\U{2000}' <= c <= '\U{200A}')
    || c == '\U{2028}' || c == '\U{2029}' || c == '\U{202F}' || c == '\U{205F}'
    || c == '\U{3000}' || c == '\U{FEFF}'
  }

  function TrimStart(s: string): string
  {
    if s != [] && IsSpace(s[0]) then TrimStart(s[1..]) else s
  }

  function TrimEnd(s: string): string
  {
    if s != [] && IsSpace(s[|s| - 1]) then TrimEnd(s[..|s| - 1]) else s
  }

  function Trim(s: string): string
  {
    TrimEnd(TrimStart(s))
  }

  /** A query made of white space only. */
  predicate Blank(s: string)
  {
    forall i :: 0 <= i < |s| ==> IsSpace(s[i])
  }

  lemma {:induction false} TrimStartFacts(s: string)
    ensures TrimStart(s) == [] <==> Blank(s)
    ensures TrimStart(s) != [] ==> !IsSpace(TrimStart(s)[0])
  {
    if s != [] && IsSpace(s[0]) {
      TrimStartFacts(s[1..]);
      assert Blank(s) <==> Blank(s[1..]) by {
        if Blank(s[1..]) {
          forall i | 0 <= i < |s| ensures IsSpace(s[i]) {
            if i > 0 {
              assert s[i] == s[1..][i - 1];
            }
          }
        }
      }
    }
  }

  lemma {:induction false} TrimEndEmpty(s: string)
    ensures TrimEnd(s) == [] <==> Blank(s)
  {
    if s != [] && IsSpace(s[|s| - 1]) {
      var init := s[..|s| - 1];
      TrimEndEmpty(init);
      assert Blank(s) <==> Blank(init) by {
        if Blank(init) {
          forall i | 0 <= i < |s| ensures IsSpace(s[i]) {
            if i < |s| - 1 {
              assert s[i] == init[i];
            }
          }
        }
      }
    }
  }

  /** `query.trim()` is empty exactly when the query is blank. */
  lemma TrimEmptyIffBlank(s: string)
    ensures Trim(s) == [] <==> Blank(s)
  {
    TrimStartFacts(s);
    TrimEndEmpty(TrimStart(s));
    if TrimStart(s) != [] {
      assert !Blank(TrimStart(s));
    }
  }

  predicate StartsWith(s: string, p: string)
  {
    |p| <= |s| && s[..|p|] == p
  }

  /** `s.includes(q)`. */
  predicate Includes(s: string, q: string)
  {
    StartsWith(s, q) || (s != [] && Includes(s[1..], q))
  }

  /** `q` occurs in `s` starting at position `i`. */
  predicate OccursAt(s: string, q: string, i: int)
  {
    0 <= i && i + |q| <= |s| && s[i..i + |q|] == q
  }

  /** `includes` finds `q` exactly when it occurs as a contiguous piece of `s` somewhere. */
  lemma {:induction false} IncludesIff(s: string, q: string)
    ensures Includes(s, q) <==> exists i :: OccursAt(s, q, i)
  {
    if StartsWith(s, q) {
      assert OccursAt(s, q, 0);
    } else if s != [] {
      IncludesIff(s[1..], q);
      if Includes(s[1..], q) {
        var i :| OccursAt(s[1..], q, i);
        assert s[1..][i..i + |q|] == s[i + 1..i + 1 + |q|];
        assert OccursAt(s, q, i + 1);
      } else if exists i :: OccursAt(s, q, i) {
        var i :| OccursAt(s, q, i);
        assert i != 0;
        assert s[1..][i - 1..i - 1 + |q|] == s[i..i + |q|];
        assert OccursAt(s[1..], q, i - 1);
      }
    }
  }

  // ---------------------------------------------------------------------------------------
  // Which topics are kept.
  // ---------------------------------------------------------------------------------------

  /** The level test of the first filter. */
  predicate LevelMatches(f: LevelFilter, t: Topic)
  {
    f.All? || t.difficulty == f.level
  }

  /** The search test: the query is lowered but not trimmed. */
  predicate QueryMatches(query: string, t: Topic)
  {
    Includes(Lower(t.title), Lower(query)) || Includes(Lower(t.description), Lower(query))
  }

  /** A topic belongs in the list: right level, and the query is blank or matches. */
  predicate Selected(f: LevelFilter, query: string, t: Topic)
  {
    LevelMatches(f, t) && (Blank(query) || QueryMatches(query, t))
  }

  /** `Array.prototype.filter`. */
  function Filter(ts: seq<Topic>, p: Topic -> bool): (r: seq<Topic>)
    ensures forall t :: multiset(r)[t] == if p(t) then multiset(ts)[t] else 0
  {
    if ts == [] then []
    else
      assert ts == [ts[0]] + ts[1..];
      (if p(ts[0]) then [ts[0]] else []) + Filter(ts[1..], p)
  }

  /** Filtering a concatenation filters each part and keeps the parts in input order. */
  lemma {:induction false} FilterConcat(a: seq<Topic>, b: seq<Topic>, p: Topic -> bool)
    ensures Filter(a + b, p) == Filter(a, p) + Filter(b, p)
  {
    if a == [] {
      assert a + b == b;
    } else {
      assert (a + b)[0] == a[0] && (a + b)[1..] == a[1..] + b;
      FilterConcat(a[1..], b, p);
    }
  }

  /** On one element: it is kept exactly when it passes the test. */
  lemma FilterSingle(t: Topic, p: Topic -> bool)
    ensures Filter([t], p) == if p(t) then [t] else []
  {
  }

  // ---------------------------------------------------------------------------------------
  // The comparator and the sort.
  // ---------------------------------------------------------------------------------------

  /** `localeCompare`, taken as lexicographic order on code points: negative, zero or positive. */
  function CompareStrings(a: string, b: string): (r: int)
    ensures -1 <= r <= 1
    ensures r == 0 <==> a == b
  {
    if a == [] then (if b == [] then 0 else -1)
    else if b == [] then 1
    else if a[0] < b[0] then -1
    else if a[0] > b[0] then 1
    else
      assert a == [a[0]] + a[1..] && b == [b[0]] + b[1..];
      CompareStrings(a[1..], b[1..])
  }

  lemma {:induction false} CompareStringsAntisymmetric(a: string, b: string)
    ensures CompareStrings(a, b) == -CompareStrings(b, a)
  {
    if a != [] && b != [] && a[0] == b[0] {
      CompareStringsAntisymmetric(a[1..], b[1..]);
    }
  }

  lemma {:induction false} CompareStringsTransitive(a: string, b: string, c: string)
    requires CompareStrings(a, b) <= 0 && CompareStrings(b, c) <= 0
    ensures CompareStrings(a, c) <= 0
  {
    if a != [] && b != [] && c != [] && a[0] == b[0] && b[0] == c[0] {
      CompareStringsTransitive(a[1..], b[1..], c[1..]);
    }
  }

  /** The sort callback: difference of ranks, or the title comparison when the ranks agree. */
  function CompareTopics(a: Topic, b: Topic): int
  {
    var diffComp := Rank(a.difficulty) - Rank(b.difficulty);
    if diffComp != 0 then diffComp else CompareStrings(a.title, b.title)
  }

  /** The callback is a total preorder: any two topics compare one way or the other, and it is transitive. */
  lemma ComparatorIsTotalPreorder(a: Topic, b: Topic, c: Topic)
    ensures CompareTopics(a, b) <= 0 || CompareTopics(b, a) <= 0
    ensures CompareTopics(a, b) <= 0 && CompareTopics(b, c) <= 0 ==> CompareTopics(a, c) <= 0
  {
    CompareStringsAntisymmetric(a.title, b.title);
    if CompareTopics(a, b) <= 0 && CompareTopics(b, c) <= 0 {
      if Rank(a.difficulty) == Rank(b.difficulty) == Rank(c.difficulty) {
        CompareStringsTransitive(a.title, b.title, c.title);
      }
    }
  }

  /** By rank first, then by title: the numeric rank never decreases along the list. */
  predicate Sorted(s: seq<Topic>)
  {
    forall i, j :: 0 <= i < j < |s| ==> CompareTopics(s[i], s[j]) <= 0
  }

  /** A topic that precedes every element of a sorted list may be put at its front. */
  lemma SortedCons(x: Topic, s: seq<Topic>)
    requires Sorted(s)
    requires forall j :: 0 <= j < |s| ==> CompareTopics(x, s[j]) <= 0
    ensures Sorted([x] + s)
  {
    var r := [x] + s;
    forall i, j | 0 <= i < j < |r| ensures CompareTopics(r[i], r[j]) <= 0 {
      if i == 0 {
        assert r[j] == s[j - 1];
      } else {
        assert r[i] == s[i - 1] && r[j] == s[j - 1];
      }
    }
  }

  /** A lower bound of a list and of `x` is a lower bound of any rearrangement of the list with `x` added. */
  lemma BoundCarriesOver(y: Topic, x: Topic, s: seq<Topic>, rest: seq<Topic>)
    requires forall j :: 0 <= j < |s| ==> CompareTopics(y, s[j]) <= 0
    requires CompareTopics(y, x) <= 0
    requires multiset(rest) == multiset(s) + multiset{x}
    ensures forall j :: 0 <= j < |rest| ==> CompareTopics(y, rest[j]) <= 0
  {
    forall j | 0 <= j < |rest| ensures CompareTopics(y, rest[j]) <= 0 {
      assert rest[j] in multiset(rest);
      if rest[j] != x {
        assert rest[j] in multiset(s);
        var k :| 0 <= k < |s| && s[k] == rest[j];
      }
    }
  }

  /** Insert `x` into a sorted list before the first element it does not follow. */
  function Insert(x: Topic, s: seq<Topic>): (r: seq<Topic>)
    requires Sorted(s)
    ensures Sorted(r)
    ensures multiset(r) == multiset(s) + multiset{x}
  {
    if s == [] then [x]
    else if CompareTopics(x, s[0]) <= 0 then
      assert forall j :: 0 <= j < |s| ==> CompareTopics(x, s[j]) <= 0 by {
        forall j | 0 <= j < |s| ensures CompareTopics(x, s[j]) <= 0 {
          ComparatorIsTotalPreorder(x, s[0], s[j]);
        }
      }
      SortedCons(x, s);
      [x] + s
    else
      assert s == [s[0]] + s[1..];
      var rest := Insert(x, s[1..]);
      ComparatorIsTotalPreorder(x, s[0], x);
      assert forall j :: 0 <= j < |s[1..]| ==> CompareTopics(s[0], s[1..][j]) <= 0 by {
        forall j | 0 <= j < |s[1..]| ensures CompareTopics(s[0], s[1..][j]) <= 0 {
          assert s[1..][j] == s[j + 1];
        }
      }
      BoundCarriesOver(s[0], x, s[1..], rest);
      SortedCons(s[0], rest);
      [s[0]] + rest
  }

  /** `[...list].sort(callback)`, as an insertion sort: the result is sorted and a permutation. */
  function SortTopics(s: seq<Topic>): (r: seq<Topic>)
    ensures Sorted(r)
    ensures multiset(r) == multiset(s)
  {
    if s == [] then []
    else
      assert s == [s[0]] + s[1..];
      Insert(s[0], SortTopics(s[1..]))
  }

  // ---------------------------------------------------------------------------------------
  // `filteredTopics`.
  // ---------------------------------------------------------------------------------------

  /** The two `filter` stages: the level filter, then the search unless the query trims to nothing. */
  function Kept(topics: seq<Topic>, f: LevelFilter, query: string): (r: seq<Topic>)
    ensures forall t :: multiset(r)[t] == if Selected(f, query, t) then multiset(topics)[t] else 0
  {
    var byLevel := match f
      case All => topics
      case Only(level) => Filter(topics, (t: Topic) => t.difficulty == level);
    var q := Lower(query);
    TrimEmptyIffBlank(query);
    if Trim(query) != [] then Filter(byLevel, (t: Topic) => Includes(Lower(t.title), q) || Includes(Lower(t.description), q))
    else byLevel
  }

  /**
   * The list the topic browser shows: sorted by rank then title, and holding each selected
   * input topic as often as the input does and nothing else.
   */
  function FilteredTopics(topics: seq<Topic>, f: LevelFilter, query: string): (r: seq<Topic>)
    ensures Sorted(r)
    ensures forall t :: multiset(r)[t] == if Selected(f, query, t) then multiset(topics)[t] else 0
    ensures forall t :: t in r <==> t in topics && Selected(f, query, t)
  {
    var r := SortTopics(Kept(topics, f, query));
    assert forall t :: t in r <==> multiset(r)[t] > 0;
    assert forall t :: t in topics <==> multiset(topics)[t] > 0;
    r
  }

  // ---------------------------------------------------------------------------------------
  // Three entries of the catalogue, as fixtures.
  // ---------------------------------------------------------------------------------------

  const Cafe := Topic("cafe", "Ordering Coffee", "fa-mug-hot", "Basic daily interaction in a cafe.",
    "You are Elfas, a friendly barista. Use simple A1-level English.", "Hello! What can I get for you today?", A1)
  const Grocery := Topic("grocery", "Grocery Store", "fa-basket-shopping", "Buying food and asking for prices.",
    "You are a shop assistant. Use very simple English, focusing on food and numbers.",
    "Hi! Do you need any help finding something?", A1)
  const Doctor := Topic("doctor", "Doctor's Appointment", "fa-user-doctor", "Discuss symptoms and medical advice.",
    "You are Dr. Elfas. Use clear B1-level medical English.", "Hello. What seems to be the problem today?", B1)

  lemma FixtureComparisons()
    ensures CompareTopics(Cafe, Grocery) == 1 && CompareTopics(Doctor, Grocery) == 2 && CompareTopics(Doctor, Cafe) == 2
  {
    assert Cafe.title[0] == 'O' && Grocery.title[0] == 'G';
  }

  lemma SortTwoFixture()
    ensures SortTopics([Cafe, Grocery]) == [Grocery, Cafe]
  {
    FixtureComparisons();
    assert [Cafe, Grocery][1..] == [Grocery];
    assert [Grocery][1..] == [];
    assert SortTopics([Grocery]) == [Grocery];
    assert Insert(Cafe, [Grocery]) == [Grocery] + Insert(Cafe, []);
  }

  lemma InsertDoctorFixture()
    ensures Insert(Doctor, [Grocery, Cafe]) == [Grocery, Cafe, Doctor]
  {
    FixtureComparisons();
    assert [Grocery, Cafe][1..] == [Cafe];
    assert Insert(Doctor, [Cafe]) == [Cafe] + Insert(Doctor, []);
    assert Insert(Doctor, [Grocery, Cafe]) == [Grocery] + Insert(Doctor, [Cafe]);
  }

  lemma SortFixture()
    ensures SortTopics([Doctor, Cafe, Grocery]) == [Grocery, Cafe, Doctor]
  {
    SortTwoFixture();
    InsertDoctorFixture();
    assert [Doctor, Cafe, Grocery][1..] == [Cafe, Grocery];
  }

  /** With no filter the A1 topics come first, in title order. */
  lemma CatalogueUnfiltered()
    ensures FilteredTopics([Doctor, Cafe, Grocery], All, "") == [Grocery, Cafe, Doctor]
  {
    assert Trim("") == [];
    SortFixture();
  }

  /** A B1 filter with a blank query keeps only the B1 topic. */
  lemma CatalogueByLevel()
    ensures FilteredTopics([Doctor, Cafe, Grocery], Only(B1), " ") == [Doctor]
  {
    var ts := [Doctor, Cafe, Grocery];
    assert Trim(" ") == [] by {
      assert " "[1..] == [];
    }
    var k := Kept(ts, Only(B1), " ");
    assert multiset(k) == multiset{Doctor};
    assert k == [Doctor] by {
      assert |k| == |multiset(k)| == 1;
      assert k[0] in multiset(k);
    }
    assert [Doctor][1..] == [];
  }
}
