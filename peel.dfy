/**
 * The shared vocabulary of the app: the four PEEL sections (src/types/peel.ts), the three
 * pronunciation scores, and a record holding one value per section, which the source writes
 * out three times (PeelResponse, the form's error flags, and the per-section score lists).
 */
module Peel {

  /** `SectionType`: the fixed order of an answer is point, explanation, example, link. */
  datatype Section = Point | Explanation | Example | Link

  /** The score a word receives in the revise flow. */
  datatype Score = Good | Fair | Poor

  /** `ScoredWord`: one word of a section together with its score. */
  datatype ScoredWord = ScoredWord(word: string, score: Score)

  /** The four sections in their fixed order. */
  const Sections: seq<Section> := [Point, Explanation, Example, Link]

  /** Position of a section in the fixed order. */
  function Index(s: Section): (i: nat)
    ensures i < |Sections| && Sections[i] == s
  {
    match s
    case Point => 0
    case Explanation => 1
    case Example => 2
    case Link => 3
  }

  /** A value for each section: `Record<SectionType, T>` in the source. */
  datatype PerSection<T> = PerSection(point: T, explanation: T, example: T, link: T) {

    /** The value held for section `s` (`record[s]`). */
    function Get(s: Section): T {
      match s
      case Point => point
      case Explanation => explanation
      case Example => example
      case Link => link
    }

    /** `{ ...record, [s]: v }`: section `s` now holds `v`, every other section is as before. */
    function Set(s: Section, v: T): (r: PerSection<T>)
      ensures r.Get(s) == v
      ensures forall t :: t != s ==> r.Get(t) == Get(t)
    {
      match s
      case Point => this.(point := v)
      case Explanation => this.(explanation := v)
      case Example => this.(example := v)
      case Link => this.(link := v)
    }
  }

  /** `PeelResponse`: the four text fields of an answer. */
  type PeelResponse = PerSection<string>

  /** The same value in every section. */
  function Uniform<T>(v: T): (r: PerSection<T>)
    ensures forall s :: r.Get(s) == v
  {
    PerSection(v, v, v, v)
  }
}
