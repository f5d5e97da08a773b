/** The page flow of the application (App.tsx): the four steps and the
    handlers that move between them, the name shown above the result, and
    how the reply text is laid out line by line. */
module AppFlow {
  import opened Types
  import opened Text
  import Oracle

  /** The reply shown when the service answers with no text. */
  const BusyText: string := "大师目前繁忙，未能给出批复。"

  /** The form: the chosen category and the question typed so far. */
  datatype FormData = FormData(kind: DivinationType, question: string)

  /** The form as it is on first load and after a reset. */
  const InitialForm: FormData := FormData(Love, "")

  /** `!question.trim()`: the trimmed question is empty, which is the case
      exactly when it holds nothing but whitespace. */
  function IsBlank(question: string): (blank: bool)
    ensures blank <==> AllWhitespace(question)
  {
    Trim(question) == ""
  }

  /** The key the result page computes for the original hexagram. */
  function HexKey(throws: seq<ThrowResult>): (key: string)
    ensures |key| == |throws|
    ensures forall i :: 0 <= i < |key| ==> (key[i] == '1' <==> throws[i].lineType.IsYang())
    ensures forall i :: 0 <= i < |key| ==> (key[i] == '0' <==> !throws[i].lineType.IsYang())
  {
    seq(|throws|, i requires 0 <= i < |throws| =>
      if throws[i].lineType == Yang || throws[i].lineType == OldYang then '1' else '0')
  }

  /** The result page's key is the service's original key. */
  lemma HexKeyIsOriginalKey(throws: seq<ThrowResult>)
    ensures HexKey(throws) == Oracle.OriginalKey(throws)
  {
  }

  /** `getOriginalHexName`: nothing before a reading exists, otherwise the
      table's name for the reading's original key, or the unknown-hexagram
      name. */
  function OriginalHexName(data: Option<DivinationData>, table: map<string, string>): (name: string)
    ensures data.None? ==> name == ""
    ensures data.Some? ==> name != ""
  {
    if data.None? then ""
    else Oracle.LookupName(table, HexKey(data.value.throws))
  }

  /** The name shown above the result is empty only before a reading exists,
      and is the name the service put into the prompt for the original
      hexagram. */
  lemma OriginalHexNameAgrees(data: Option<DivinationData>, table: map<string, string>)
    ensures OriginalHexName(data, table) == "" <==> data.None?
    ensures data.Some? ==>
      OriginalHexName(data, table) == Oracle.Resolve(data.value.throws, table).originalName
  {
    if data.Some? {
      HexKeyIsOriginalKey(data.value.throws);
    }
  }

  /** The three views of the coin-throwing page. */
  datatype View = CoinsView | LoadingView | ErrorView(message: string)

  /** The application's state. Loading is true from the moment a request is
      sent until its reply or failure has been handled; the other handlers can
      run in between. */
  class App {
    var step: AppStep
    var form: FormData
    var divinationData: Option<DivinationData>
    var resultText: string
    var loading: bool
    var error: Option<string>

    /** The result page is reached only with a reading and a reply text. */
    ghost predicate Valid()
      reads this
    {
      step == Result ==> divinationData.Some? && resultText != ""
    }

    constructor ()
      ensures Valid()
      ensures step == Landing && form == InitialForm && divinationData == None
      ensures resultText == "" && !loading && error == None
    {
      step := Landing;
      form := InitialForm;
      divinationData := None;
      resultText := "";
      loading := false;
      error := None;
    }

    /** `startDivination`: go to the input page and clear the error. */
    method StartDivination()
      requires Valid()
      modifies this`step, this`error
      ensures Valid()
      ensures step == Input && error == None
    {
      step := Input;
      error := None;
    }

    /** Picking a category on the input page. */
    method SelectCategory(kind: DivinationType)
      requires Valid()
      modifies this`form
      ensures Valid()
      ensures form == old(form).(kind := kind)
    {
      form := form.(kind := kind);
    }

    /** Typing in the question box. */
    method EditQuestion(question: string)
      requires Valid()
      modifies this`form
      ensures Valid()
      ensures form == old(form).(question := question)
    {
      form := form.(question := question);
    }

    /** `handleInputConfirm`: a blank question keeps the page; any other
        question moves on to the coin throwing. */
    method HandleInputConfirm()
      requires Valid()
      modifies this`step
      ensures Valid()
      ensures AllWhitespace(form.question) ==> step == old(step)
      ensures !AllWhitespace(form.question) ==> step == Divination
    {
      if IsBlank(form.question) {
        return;
      }
      step := Divination;
    }

    /** The first half of `handleDivinationComplete`, up to the `await`: the
        reading is stored with the form, loading starts and the error is
        cleared. */
    method BeginRequest(sent: FormData, throws: seq<ThrowResult>)
      requires Valid()
      modifies this`divinationData, this`loading, this`error
      ensures Valid()
      ensures divinationData == Some(DivinationData(sent.kind, sent.question, throws))
      ensures loading && error == None
    {
      divinationData := Some(DivinationData(sent.kind, sent.question, throws));
      loading := true;
      error := None;
    }

    /** The second half of `handleDivinationComplete`, once the service has
        answered: a reply moves to the result page with the reply text (or the
        busy text when it is empty), a failure shows the service's message and
        keeps the page; loading stops either way. The step is not consulted:
        a reply that arrives after the user went back still opens the result
        page. */
    method FinishRequest(reply: Oracle.HttpReply)
      requires Valid() && divinationData.Some?
      modifies this`loading, this`error, this`resultText, this`step
      ensures Valid()
      ensures !loading
      ensures Oracle.Interpret(reply).Replied? ==>
        step == Result && error == old(error) &&
        resultText == (if Oracle.Interpret(reply).text == "" then BusyText else Oracle.Interpret(reply).text)
      ensures Oracle.Interpret(reply).Failed? ==>
        step == old(step) && resultText == old(resultText) &&
        error == Some(Oracle.BlockedMessage)
    {
      var outcome := Oracle.Interpret(reply);
      match outcome {
        case Replied(text) =>
          resultText := if text == "" then BusyText else text;
          step := Result;
        case Failed(message) =>
          error := Some(message);
      }
      loading := false;
    }

    /** `handleDivinationComplete` with the reply arriving before any other
        handler runs. `sent` is the form the running closure captured: the
        current form for the retry button, and for the coin thrower's late
        callback the form as it was when the sixth throw was clicked. */
    method HandleDivinationComplete(sent: FormData, throws: seq<ThrowResult>, reply: Oracle.HttpReply)
      requires Valid()
      modifies this`divinationData, this`loading, this`error, this`resultText, this`step
      ensures Valid()
      ensures divinationData == Some(DivinationData(sent.kind, sent.question, throws))
      ensures !loading
      ensures Oracle.Interpret(reply).Replied? ==>
        step == Result && error == None &&
        resultText == (if Oracle.Interpret(reply).text == "" then BusyText else Oracle.Interpret(reply).text)
      ensures Oracle.Interpret(reply).Failed? ==>
        step == old(step) && resultText == old(resultText) &&
        error == Some(Oracle.BlockedMessage)
    {
      BeginRequest(sent, throws);
      FinishRequest(reply);
    }

    /** The retry button on the error view: the stored reading is sent again
        with the current form; without a stored reading nothing happens. */
    method Retry(reply: Oracle.HttpReply)
      requires Valid()
      modifies this`divinationData, this`loading, this`error, this`resultText, this`step
      ensures Valid()
      ensures old(divinationData).None? ==>
        divinationData == None && step == old(step) && error == old(error) &&
        resultText == old(resultText) && loading == old(loading)
      ensures old(divinationData).Some? ==>
        divinationData == Some(DivinationData(form.kind, form.question, old(divinationData).value.throws)) &&
        !loading &&
        (Oracle.Interpret(reply).Replied? ==>
          step == Result && error == None &&
          resultText == (if Oracle.Interpret(reply).text == "" then BusyText else Oracle.Interpret(reply).text)) &&
        (Oracle.Interpret(reply).Failed? ==>
          step == old(step) && resultText == old(resultText) && error == Some(Oracle.BlockedMessage))
    {
      if divinationData.Some? {
        HandleDivinationComplete(form, divinationData.value.throws, reply);
      }
    }

    /** `reset`: back to the landing page with an empty form. */
    method Reset()
      requires Valid()
      modifies this`step, this`form, this`divinationData, this`resultText, this`error
      ensures Valid()
      ensures step == Landing && form == InitialForm && divinationData == None
      ensures resultText == "" && error == None
    {
      step := Landing;
      form := InitialForm;
      divinationData := None;
      resultText := "";
      error := None;
    }

    /** `goBack`: from the input page to the landing page, from the coin
        throwing to the input page, elsewhere no move; the error is cleared
        in every case. */
    method GoBack()
      requires Valid()
      modifies this`step, this`error
      ensures Valid()
      ensures step == PreviousStep(old(step))
      ensures error == None
    {
      if step == Input {
        step := Landing;
      } else if step == Divination {
        step := Input;
      }
      error := None;
    }

    /** What the coin-throwing page shows: the coins when neither loading nor
        failed, the loading view while loading (even over an error), and
        otherwise the error view with its message. */
    function DivinationView(): (v: View)
      reads this
      ensures v == CoinsView <==> !loading && error.None?
      ensures v == LoadingView <==> loading
      ensures v.ErrorView? <==> !loading && error.Some?
      ensures v.ErrorView? ==> v.message == error.value
    {
      if !loading && error.None? then CoinsView
      else if loading then LoadingView
      else ErrorView(error.value)
    }

    /** The heading of the result page: the original hexagram's name, never
        empty there, and the name the prompt gave that hexagram. */
    function ResultHeading(table: map<string, string>): (name: string)
      reads this
      requires Valid() && step == Result
      ensures name != ""
      ensures name == Oracle.Resolve(divinationData.value.throws, table).originalName
    {
      OriginalHexNameAgrees(divinationData, table);
      OriginalHexName(divinationData, table)
    }
  }

  /** Where the back button leads from each step. */
  function PreviousStep(s: AppStep): (p: AppStep)
    ensures s == Input ==> p == Landing
    ensures s == Divination ==> p == Input
    ensures s == Landing || s == Result ==> p == s
  {
    if s == Input then Landing else if s == Divination then Input else s
  }

  /** Going back twice from the coin throwing leads to the landing page, and
      the landing and result pages have no way back. */
  lemma PreviousStepFacts(s: AppStep)
    ensures PreviousStep(PreviousStep(Divination)) == Landing
    ensures PreviousStep(s) == s <==> s == Landing || s == Result
  {
  }

  /** How a line of the reply is shown. */
  datatype Block = Spacer | Heading(text: string) | Paragraph(text: string)

  /** `line.startsWith('#')`: a heading line; its leading '#' does not show
      in the cleaned text. */
  function IsHeaderLine(line: string): (header: bool)
    ensures header ==> '#' in line && CleanLine(line) == CleanLine(line[1..])
  {
    |line| > 0 && line[0] == '#'
  }

  /** `line.replace(/#/g, '').trim()`: the line without any '#' and without
      surrounding whitespace. */
  function CleanLine(line: string): (r: string)
    ensures '#' !in r
    ensures r == "" || (!IsWhitespace(r[0]) && !IsWhitespace(r[|r| - 1]))
    ensures r == "" <==> AllWhitespace(RemoveAll(line, '#'))
    ensures exists a :: TrimmedAt(RemoveAll(line, '#'), r, a)
  {
    var kept := RemoveAll(line, '#');
    var r := Trim(kept);
    assert '#' !in r by {
      var a :| TrimmedAt(kept, r, a);
      TrimmedAtKeeps(kept, r, a, '#');
    }
    r
  }

  /** Cleaning a cleaned line changes nothing. */
  lemma CleanLineIdempotent(line: string)
    ensures CleanLine(CleanLine(line)) == CleanLine(line)
  {
    var c := CleanLine(line);
    RemoveAllAbsent(c, '#');
    TrimTrimmed(c);
  }

  /** The block for one line: a spacer when nothing is left after cleaning,
      otherwise a heading or a paragraph holding the cleaned text. */
  function RenderLine(line: string): (b: Block)
    ensures b.Spacer? <==> CleanLine(line) == ""
    ensures b.Heading? <==> IsHeaderLine(line) && CleanLine(line) != ""
    ensures !b.Spacer? ==> b.text == CleanLine(line)
  {
    var clean := CleanLine(line);
    if clean == "" then Spacer
    else if IsHeaderLine(line) then Heading(clean)
    else Paragraph(clean)
  }

  /** The reply laid out: one block per line of the text. */
  function RenderResult(text: string): (blocks: seq<Block>)
    ensures |blocks| == |Split(text, '\n')| == multiset(text)['\n'] + 1
    ensures forall i :: 0 <= i < |blocks| ==> blocks[i] == RenderLine(Split(text, '\n')[i])
  {
    var lines := Split(text, '\n');
    SplitCount(text, '\n');
    seq(|lines|, i requires 0 <= i < |lines| => RenderLine(lines[i]))
  }

  /** No heading or paragraph holds a '#' or starts or ends with whitespace,
      and none is empty. */
  lemma RenderedTextClean(text: string, i: int)
    requires 0 <= i < |RenderResult(text)|
    ensures !RenderResult(text)[i].Spacer? ==>
      var t := RenderResult(text)[i].text;
      t != "" && '#' !in t && !IsWhitespace(t[0]) && !IsWhitespace(t[|t| - 1])
  {
  }
}
