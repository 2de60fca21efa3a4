/** The transaction-history panel: the last ten log entries, most recent
    first. The log itself is never truncated; only the view is. */
module History {

  /** How many entries the history panel shows at most. */
  const ShownEntries: nat := 10

  function Reverse<T>(s: seq<T>): (r: seq<T>)
    ensures |r| == |s|
    ensures forall i :: 0 <= i < |s| ==> r[i] == s[|s| - 1 - i]
    decreases |s|
  {
    if |s| == 0 then [] else [s[|s| - 1]] + Reverse(s[..|s| - 1])
  }

  /** The entries the panel lists, top to bottom. */
  function Recent<T>(log: seq<T>): (r: seq<T>)
    ensures |r| == if |log| < ShownEntries then |log| else ShownEntries
    ensures forall i :: 0 <= i < |r| ==> r[i] == log[|log| - 1 - i]
  {
    var k := if |log| < ShownEntries then |log| else ShownEntries;
    Reverse(log[|log| - k..])
  }

  /** Right after an entry is appended, it heads the panel, and the rest of
      the panel is the previous panel shifted down by one line. */
  lemma RecentAfterAppend<T>(log: seq<T>, e: T)
    ensures Recent(log + [e])[0] == e
    ensures Recent(log + [e])[1..] == Recent(log)[..|Recent(log + [e])| - 1]
  {
  }
}
