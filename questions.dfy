/** The exam questions the generator emits and `submit_exam` grades, and the
    letter-to-text option dictionaries of multiple-choice questions. */
module Questions {
  import opened Wrappers

  /** A `dict` from option letter to option text; the sequence keeps Python's
      insertion order, and a key that is written again keeps its place. */
  type Options = seq<(char, string)>

  function KeySet(d: Options): set<char> {
    if d == [] then {} else {d[0].0} + KeySet(d[1..])
  }

  /** No key appears twice. */
  predicate DistinctKeys(d: Options) {
    d == [] || (d[0].0 !in KeySet(d[1..]) && DistinctKeys(d[1..]))
  }

  /** `d.get(key)` */
  function Lookup(d: Options, key: char): (r: Option<string>)
    ensures r.Some? <==> key in KeySet(d)
  {
    if d == [] then None
    else if d[0].0 == key then Some(d[0].1)
    else Lookup(d[1..], key)
  }

  /** `d[key] = value`: overwrites the value in place when the key is present,
      appends the pair otherwise. */
  function Put(d: Options, key: char, value: string): (r: Options)
    ensures KeySet(r) == KeySet(d) + {key}
    ensures |r| == if key in KeySet(d) then |d| else |d| + 1
    ensures DistinctKeys(d) ==> DistinctKeys(r)
    ensures Lookup(r, key) == Some(value)
    ensures forall k :: k != key ==> Lookup(r, k) == Lookup(d, k)
  {
    if d == [] then [(key, value)]
    else if d[0].0 == key then [(key, value)] + d[1..]
    else [d[0]] + Put(d[1..], key, value)
  }

  /** A dictionary without repeated keys has as many entries as keys. */
  lemma {:induction false} DistinctKeysCount(d: Options)
    requires DistinctKeys(d)
    ensures |KeySet(d)| == |d|
  {
    if d != [] {
      DistinctKeysCount(d[1..]);
    }
  }

  const LETTERS: set<char> := {'A', 'B', 'C', 'D'}

  /** Four distinct keys drawn from A-D are exactly A, B, C and D. */
  lemma FourLetters(keys: set<char>)
    requires keys <= LETTERS && |keys| == 4
    ensures keys == LETTERS
  {
    if keys != LETTERS {
      var c :| c in LETTERS && c !in keys;
      assert keys <= LETTERS - {c};
      assert |LETTERS - {c}| == 3;
      SubsetCard(keys, LETTERS - {c});
      assert false;
    }
  }

  /** A dictionary keyed by letters from A-D without repeats has four
      entries exactly when every letter has one. */
  lemma FourKeys(d: Options)
    requires KeySet(d) <= LETTERS && DistinctKeys(d)
    ensures |d| == 4 <==> forall c :: c in LETTERS ==> Lookup(d, c).Some?
  {
    DistinctKeysCount(d);
    if forall c :: c in LETTERS ==> Lookup(d, c).Some? {
      assert KeySet(d) == LETTERS;
    }
    if |d| == 4 {
      FourLetters(KeySet(d));
    }
  }

  lemma SubsetCard(a: set<char>, b: set<char>)
    requires a <= b
    ensures |a| <= |b|
  {
    assert b == a + (b - a);
  }

  datatype Question =
    | MultipleChoice(question: string, options: Options, correct: char, explanation: string)
    | TrueFalse(question: string, answer: bool, explanation: string)
    | ShortAnswer(question: string, sampleAnswer: string, keyPoints: string)
  {
    /** The `type` field of the question's record. */
    function TypeName(): string {
      match this
      case MultipleChoice(_, _, _, _) => "multiple_choice"
      case TrueFalse(_, _, _) => "true_false"
      case ShortAnswer(_, _, _) => "short_answer"
    }

    /** `q.get('explanation', '')`: short-answer records carry none. */
    function Explanation(): string {
      match this
      case MultipleChoice(_, _, _, e) => e
      case TrueFalse(_, _, e) => e
      case ShortAnswer(_, _, _) => ""
    }
  }
}
