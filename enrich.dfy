/** The synthetic columns: a statement drawn from a fixed pool for each row,
    lower-cased, and a date one day apart per row. */
module Enrich {
  import opened Sentiment

  /** The fixed pool the statements are drawn from. */
  const Pool: seq<string> := [
    "The new vaccine rollout has been amazing!",
    "Poor healthcare service in recent months.",
    "Hospital staff have shown great resilience.",
    "Government healthcare policy needs revision.",
    "Mental health support is getting better.",
    "Still facing issues getting medical appointments.",
    "Excellent care at the city clinic.",
    "Vaccination drives are very slow lately.",
    "More awareness needed for health checkups.",
    "Public hospitals are doing a great job!",
    "Medical expenses are still very high.",
    "Ambulance response time has improved a lot.",
    "Health insurance policy needs to be simplified.",
    "Doctors are doing their best with limited resources.",
    "Vaccination centers are overcrowded.",
    "Thankful for free healthcare services."
  ]

  /** The seeded generator seen as a stream: `draw(k)` is the pool index
      of the k-th uniform choice. Every pick is a valid index. */
  ghost predicate ValidDraw(draw: nat -> nat)
  {
    forall k: nat :: draw(k) < |Pool|
  }

  /** The statements drawn for n rows, in row order: draw i picks the i-th
      statement. */
  function Drawn(draw: nat -> nat, n: nat): (r: seq<string>)
    requires ValidDraw(draw)
    ensures |r| == n
    ensures forall i :: 0 <= i < n ==> r[i] in Pool && r[i] == Pool[draw(i)]
  {
    if n == 0 then [] else Drawn(draw, n - 1) + [Pool[draw(n - 1)]]
  }

  predicate IsUpper(c: char)
  {
    'A' <= c <= 'Z'
  }

  function LowerChar(c: char): char
  {
    if IsUpper(c) then (c as int + 32) as char else c
  }

  /** Lower-casing of the statements, which are plain ASCII. */
  function Lower(s: string): (r: string)
    ensures |r| == |s|
    ensures forall i :: 0 <= i < |r| ==> !IsUpper(r[i])
    ensures forall i :: 0 <= i < |r| ==> !IsUpper(s[i]) ==> r[i] == s[i]
    ensures forall i :: 0 <= i < |r| ==> IsUpper(s[i]) ==> r[i] as int == s[i] as int + ('a' as int - 'A' as int)
  {
    seq(|s|, i requires 0 <= i < |s| => LowerChar(s[i]))
  }

  /** Lower-casing lower-cased text changes nothing. */
  lemma LowerIdempotent(s: string)
    ensures Lower(Lower(s)) == Lower(s)
  {
  }

  /** Lower-casing applied to a whole column, row by row. */
  function LowerAll(texts: seq<string>): (r: seq<string>)
    ensures |r| == |texts|
    ensures forall i :: 0 <= i < |r| ==> r[i] == Lower(texts[i])
  {
    seq(|texts|, i requires 0 <= i < |texts| => Lower(texts[i]))
  }

  /** A daily date range of n periods from 2023-01-01, as day offsets: the
      first row gets the start date and each further row the next day, so the
      dates strictly increase and none repeats. */
  function DayOffsets(n: nat): (r: seq<int>)
    ensures |r| == n
    ensures n > 0 ==> r[0] == 0
    ensures forall i :: 0 < i < n ==> r[i] == r[i - 1] + 1
    ensures forall i, j :: 0 <= i < j < n ==> r[i] < r[j]
  {
    seq(n, i requires 0 <= i < n => i)
  }

  /** The label rule applied to the text column: one label per text, from
      the score of that text. */
  function Labels(texts: seq<string>, score: string -> real): (r: seq<Label>)
    ensures |r| == |texts|
    ensures forall i :: 0 <= i < |r| ==> r[i] == Classify(score(texts[i]))
  {
    seq(|texts|, i requires 0 <= i < |texts| => Classify(score(texts[i])))
  }
}
