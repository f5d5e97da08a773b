/** The value types the coin thrower, the interpretation service and the
    page flow compute over (types.ts). */
module Types {

  datatype Option<+T> = None | Some(value: T)

  /** The four pages of the application, in the order a reading visits them. */
  datatype AppStep = Landing | Input | Divination | Result

  /** The closed set of question categories the user picks from. */
  datatype DivinationType = Love | Career | Health | Work | StudyAndWealth | Other
  {
    /** The category's display text, which is also what the prompt quotes. */
    function Label(): (s: string)
      ensures s != "" && '\n' !in s
    {
      match this
      case Love => "感情问题"
      case Career => "事业方向"
      case Health => "健康问题"
      case Work => "工作问题"
      case StudyAndWealth => "学业财运"
      case Other => "其他"
    }
  }

  /** A line of the hexagram: young (stable) or old (changing), yang or yin. */
  datatype LineType = Yang | Yin | OldYang | OldYin
  {
    /** Old lines are the changing ones. */
    predicate IsOld() { this == OldYang || this == OldYin }

    /** The resting polarity of the line: yang for Yang and OldYang. */
    predicate IsYang() { this == Yang || this == OldYang }
  }

  /** One throw of three coins: how many coins showed the inscribed face
      (documented as 0..3) and the line that count gives. */
  datatype ThrowResult = ThrowResult(heads: int, lineType: LineType)

  /** What is handed to the interpretation service: the category, the question
      and the throws, first throw first (bottom line first). */
  datatype DivinationData = DivinationData(kind: DivinationType, question: string, throws: seq<ThrowResult>)

  /** Distinct categories are quoted differently in the prompt. */
  lemma LabelInjective(a: DivinationType, b: DivinationType)
    ensures a.Label() == b.Label() <==> a == b
  {
  }
}
