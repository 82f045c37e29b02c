/**
 * The structured question-answer matcher (`findAnswer`): a word-overlap match
 * against a table of questions, then a keyword-to-category fallback. The table
 * is a parameter; the table the application ships with is empty.
 */
module ConstitutionQA {
  import opened Wrappers
  import opened Text
  import opened Collections

  datatype QA = QA(question: string, answer: string, category: string)

  /** A fallback entry: any of `words` in the query selects `category`. */
  datatype Keyword = Keyword(words: seq<string>, category: string)

  /** The table the application ships with. */
  const CONSTITUTION_QA: seq<QA> := []

  /** The fallback entries, in the order they are scanned. */
  const KEYWORDS: seq<Keyword> := [
    Keyword(["preamble"], "Preamble"),
    Keyword(["sovereign", "sovereignty"], "Preamble"),
    Keyword(["secular", "secularism"], "Preamble"),
    Keyword(["democratic", "democracy"], "Preamble"),
    Keyword(["republic"], "Preamble"),
    Keyword(["basic structure"], "Basic Structure"),
    Keyword(["fundamental rights", "article 14", "article 15", "article 16", "article 19",
             "article 21", "article 32"], "Fundamental Rights"),
    Keyword(["dpsp", "directive principles"], "DPSP"),
    Keyword(["fundamental duties"], "Fundamental Duties"),
    Keyword(["president", "executive"], "Union Executive"),
    Keyword(["parliament", "lok sabha", "rajya sabha"], "Parliament"),
    Keyword(["supreme court", "judiciary", "judicial"], "Judiciary"),
    Keyword(["emergency"], "Emergency"),
    Keyword(["amendment"], "Amendment"),
    Keyword(["ambedkar", "father of constitution"], "Miscellaneous")
  ]

  /**
   * The content words of a question: the pieces of its lower-cased text split
   * on single spaces that are longer than three characters, in order and with
   * repeats.
   */
  function ContentWords(question: string): (r: seq<string>)
    ensures forall i :: 0 <= i < |r| ==> |r[i]| > 3
    ensures IsSubsequence(r, Split(ToLower(question), ' '))
    ensures forall w :: |w| > 3 ==> multiset(r)[w] == multiset(Split(ToLower(question), ' '))[w]
  {
    KeepSubsequence(Split(ToLower(question), ' '), w => |w| > 3);
    KeepMultiset(Split(ToLower(question), ' '), w => |w| > 3);
    Keep(Split(ToLower(question), ' '), w => |w| > 3)
  }

  /** How many of `words` (repeats counted) occur in the lower-cased query `lq`. */
  function MatchCount(words: seq<string>, lq: string): (r: nat)
    ensures r <= |words|
    ensures r == |words| <==> forall i :: 0 <= i < |words| ==> Contains(lq, words[i])
    ensures r == 0 <==> forall i :: 0 <= i < |words| ==> !Contains(lq, words[i])
  {
    KeepSizeAll(words, w => Contains(lq, w));
    KeepSizeNone(words, w => Contains(lq, w));
    |Keep(words, w => Contains(lq, w))|
  }

  /** Repeats count: each word adds one when it occurs, whatever came before. */
  lemma MatchCountCons(w: string, rest: seq<string>, lq: string)
    ensures MatchCount([w] + rest, lq) == (if Contains(lq, w) then 1 else 0) + MatchCount(rest, lq)
  {
    assert ([w] + rest)[1..] == rest;
  }

  /** `Math.min(3, n * 0.5)`: the number of matches a question with `n` content words needs. */
  function Threshold(n: nat): (r: real)
    ensures 0.0 <= r <= 3.0 && r <= n as real * 0.5
    ensures n <= 6 ==> r == n as real * 0.5
    ensures n >= 6 ==> r == 3.0
    ensures r == 0.0 <==> n == 0
  {
    if n as real * 0.5 < 3.0 then n as real * 0.5 else 3.0
  }

  /** A table entry answers the lower-cased query `lq` directly. */
  predicate DirectMatch(qa: QA, lq: string) {
    var words := ContentWords(qa.question);
    MatchCount(words, lq) as real >= Threshold(|words|)
  }

  /** A question without content words has threshold 0 and matches every query. */
  lemma NoContentWordsMatchesAll(qa: QA, lq: string)
    requires ContentWords(qa.question) == []
    ensures DirectMatch(qa, lq)
  {
  }

  /** Three occurring content words are always enough, however long the question. */
  lemma ThreeMatchesSuffice(qa: QA, lq: string)
    requires MatchCount(ContentWords(qa.question), lq) >= 3
    ensures DirectMatch(qa, lq)
  {
  }

  /** A question all of whose content words occur in the query matches it. */
  lemma AllWordsMatch(qa: QA, lq: string)
    requires forall w :: w in ContentWords(qa.question) ==> Contains(lq, w)
    ensures DirectMatch(qa, lq)
  {
    var words := ContentWords(qa.question);
    assert forall i :: 0 <= i < |words| ==> Contains(lq, words[i]) by {
      forall i | 0 <= i < |words| ensures Contains(lq, words[i]) {
        assert words[i] in words;
      }
    }
  }

  /** The table entries of one category, in table order. */
  function CategoryQAs(table: seq<QA>, category: string): (r: seq<QA>)
    ensures forall i :: 0 <= i < |r| ==> r[i].category == category
    ensures IsSubsequence(r, table)
    ensures |r| > 0 <==> exists i :: 0 <= i < |table| && table[i].category == category
    ensures forall x :: x in r ==> x in table
    ensures forall x: QA :: x.category == category ==> multiset(r)[x] == multiset(table)[x]
  {
    KeepSizeNone(table, (qa: QA) => qa.category == category);
    KeepSubsequence(table, (qa: QA) => qa.category == category);
    KeepMultiset(table, (qa: QA) => qa.category == category);
    var r := Keep(table, (qa: QA) => qa.category == category);
    assert forall x :: x in r ==> x in table by {
      forall x | x in r ensures x in table {
        assert x in multiset(r);
      }
    }
    r
  }

  /** `table[i]` is the first entry of `category`. */
  predicate FirstOfCategory(table: seq<QA>, category: string, i: nat) {
    i < |table| && table[i].category == category
    && forall j :: 0 <= j < i ==> table[j].category != category
  }

  /** `filter(...)[0]`: the head of a category's entries is its first entry in the table. */
  lemma CategoryQAsFirst(table: seq<QA>, category: string, i: nat)
    requires FirstOfCategory(table, category, i)
    ensures |CategoryQAs(table, category)| > 0 && CategoryQAs(table, category)[0] == table[i]
  {
    KeepFirst(table, (qa: QA) => qa.category == category, i);
  }

  /** A fallback entry applies: one of its words occurs and its category has an entry. */
  predicate Qualifies(kw: Keyword, table: seq<QA>, lq: string) {
    (exists i :: 0 <= i < |kw.words| && Contains(lq, kw.words[i]))
    && |CategoryQAs(table, kw.category)| > 0
  }

  /** A table entry directly answers `query`, and no earlier one does. */
  predicate FirstDirect(table: seq<QA>, query: string, i: nat) {
    i < |table| && DirectMatch(table[i], ToLower(query))
    && forall j :: 0 <= j < i ==> !DirectMatch(table[j], ToLower(query))
  }

  /** A fallback entry applies to `query`, and no earlier one does. */
  predicate FirstQualifying(keywords: seq<Keyword>, table: seq<QA>, query: string, k: nat) {
    k < |keywords| && Qualifies(keywords[k], table, ToLower(query))
    && forall j :: 0 <= j < k ==> !Qualifies(keywords[j], table, ToLower(query))
  }

  /**
   * `findAnswer` over the question table `table` and the fallback entries
   * `keywords` (the source fixes the latter to KEYWORDS).
   */
  function FindAnswerIn(table: seq<QA>, keywords: seq<Keyword>, query: string): (r: Option<string>)
    // every answer comes from the table
    ensures r.Some? ==> exists i :: 0 <= i < |table| && r.value == table[i].answer
    // no answer exactly when nothing matches and no fallback entry applies
    ensures r.None? <==> (forall i :: 0 <= i < |table| ==> !DirectMatch(table[i], ToLower(query)))
                         && (forall k :: 0 <= k < |keywords| ==> !Qualifies(keywords[k], table, ToLower(query)))
  {
    var lq := ToLower(query);
    match FirstIndex(table, qa => DirectMatch(qa, lq))
    case Some(i) => Some(table[i].answer)
    case None =>
      match FirstIndex(keywords, kw => Qualifies(kw, table, lq))
      case Some(k) =>
        var qas := CategoryQAs(table, keywords[k].category);
        assert qas[0] in table;
        Some(qas[0].answer)
      case None => None
  }

  /** The first entry that matches directly gives the answer. */
  lemma FirstDirectMatchWins(table: seq<QA>, keywords: seq<Keyword>, query: string, i: nat)
    requires FirstDirect(table, query, i)
    ensures FindAnswerIn(table, keywords, query) == Some(table[i].answer)
  {
    FirstIndexOf(table, qa => DirectMatch(qa, ToLower(query)), i);
  }

  /**
   * Only without any direct match does the fallback run: then the first
   * applicable entry gives the first answer of its category. An entry whose
   * category has no table entry does not apply, so the scan passes over it.
   */
  lemma FallbackWithoutDirectMatch(table: seq<QA>, keywords: seq<Keyword>, query: string, k: nat)
    requires forall i :: 0 <= i < |table| ==> !DirectMatch(table[i], ToLower(query))
    requires FirstQualifying(keywords, table, query, k)
    ensures FindAnswerIn(table, keywords, query) == Some(CategoryQAs(table, keywords[k].category)[0].answer)
  {
    FirstIndexOf(keywords, kw => Qualifies(kw, table, ToLower(query)), k);
  }

  /** The fallback answer is that of the first table entry of the chosen category. */
  lemma FallbackAnswersFirstOfCategory(table: seq<QA>, keywords: seq<Keyword>, query: string, k: nat, i: nat)
    requires forall i :: 0 <= i < |table| ==> !DirectMatch(table[i], ToLower(query))
    requires FirstQualifying(keywords, table, query, k)
    requires FirstOfCategory(table, keywords[k].category, i)
    ensures FindAnswerIn(table, keywords, query) == Some(table[i].answer)
  {
    FallbackWithoutDirectMatch(table, keywords, query, k);
    CategoryQAsFirst(table, keywords[k].category, i);
  }

  /** `findAnswer`, with the shipped table and fallback entries. */
  function FindAnswer(query: string): (r: Option<string>)
    ensures r.Some? ==> exists i :: 0 <= i < |CONSTITUTION_QA| && r.value == CONSTITUTION_QA[i].answer
  {
    FindAnswerIn(CONSTITUTION_QA, KEYWORDS, query)
  }

  /** With the shipped (empty) table, no query is ever answered. */
  lemma ShippedTableNeverAnswers(query: string)
    ensures FindAnswer(query) == None
  {
    forall kw: Keyword
      ensures !Qualifies(kw, CONSTITUTION_QA, ToLower(query))
    {
      assert CategoryQAs(CONSTITUTION_QA, kw.category) == [];
    }
  }

  /**
   * A query mentioning 'preamble', with no direct match, gets the first
   * Preamble entry's answer whenever the table has one.
   */
  lemma PreambleFallback(table: seq<QA>, query: string)
    requires forall i :: 0 <= i < |table| ==> !DirectMatch(table[i], ToLower(query))
    requires Contains(ToLower(query), "preamble")
    requires exists i :: 0 <= i < |table| && table[i].category == "Preamble"
    ensures FindAnswerIn(table, KEYWORDS, query) == Some(CategoryQAs(table, "Preamble")[0].answer)
  {
    var lq, kw := ToLower(query), KEYWORDS[0];
    assert kw == Keyword(["preamble"], "Preamble");
    assert |CategoryQAs(table, kw.category)| > 0;
    assert Contains(lq, kw.words[0]);
    assert Qualifies(kw, table, lq);
    assert FirstQualifying(KEYWORDS, table, query, 0);
    FallbackWithoutDirectMatch(table, KEYWORDS, query, 0);
  }
}
