/** The interpretation service (services/gemini.ts): the reading is reduced to
    the keys of the original and the changed hexagram, the keys are looked up
    in the name table, and a prompt describing the divination is assembled for
    the remote text-generation service, whose reply or failure is then turned
    into the service's own result. The HTTP exchange itself is an input. */
module Oracle {
  import opened Types
  import opened Text

  /** The name given to a key the table does not know. */
  const UnknownName: string := "未知卦"

  /** The one message the service fails with, whatever went wrong. */
  const BlockedMessage: string := "天地感应阻塞，请检查网络或 API 配置。"

  /** The bit of a line in the original hexagram: its resting polarity. */
  function OriginalBit(t: LineType): char {
    if t == Yang || t == OldYang then '1' else '0'
  }

  /** The bit of a line in the changed hexagram: old yang becomes yin, old yin
      becomes yang, young lines keep their polarity. */
  function ChangedBit(t: LineType): char {
    if t == OldYang then '0'
    else if t == OldYin then '1'
    else if t == Yang then '1'
    else '0'
  }

  /** `originalHex`: one bit per throw, first throw first, '1' for a yang
      resting polarity. */
  function OriginalKey(throws: seq<ThrowResult>): (key: string)
    ensures |key| == |throws|
    ensures forall i :: 0 <= i < |key| ==> key[i] == '0' || key[i] == '1'
    ensures forall i :: 0 <= i < |key| ==> (key[i] == '1' <==> throws[i].lineType.IsYang())
  {
    if throws == [] then ""
    else OriginalKey(throws[..|throws| - 1]) + [OriginalBit(throws[|throws| - 1].lineType)]
  }

  /** `changedHex`: one bit per throw, first throw first, '1' where the line
      is yang after every old line has turned into its opposite. */
  function ChangedKey(throws: seq<ThrowResult>): (key: string)
    ensures |key| == |throws|
    ensures forall i :: 0 <= i < |key| ==> key[i] == '0' || key[i] == '1'
    ensures forall i :: 0 <= i < |key| ==>
      (key[i] == '1' <==> (throws[i].lineType.IsYang() != throws[i].lineType.IsOld()))
  {
    if throws == [] then ""
    else ChangedKey(throws[..|throws| - 1]) + [ChangedBit(throws[|throws| - 1].lineType)]
  }

  /** The two keys agree on every young line and differ on every old line. */
  lemma KeysDifferExactlyAtOldLines(throws: seq<ThrowResult>, i: int)
    requires 0 <= i < |throws|
    ensures ChangedKey(throws)[i] != OriginalKey(throws)[i] <==> throws[i].lineType.IsOld()
  {
  }

  /** The changed hexagram is the original one exactly when no line is old. */
  lemma SameKeyIffNoOldLines(throws: seq<ThrowResult>)
    ensures ChangedKey(throws) == OriginalKey(throws) <==>
      forall i :: 0 <= i < |throws| ==> !throws[i].lineType.IsOld()
  {
  }

  /** The line an old line turns into; young lines stay as they are. */
  function Settle(t: LineType): (s: LineType)
    ensures !s.IsOld()
    ensures s.IsYang() == (t.IsYang() != t.IsOld())
  {
    match t
    case OldYang => Yin
    case OldYin => Yang
    case _ => t
  }

  /** The reading once every old line has turned. */
  function SettleAll(throws: seq<ThrowResult>): (r: seq<ThrowResult>)
    ensures |r| == |throws|
    ensures forall i :: 0 <= i < |r| ==>
      r[i] == ThrowResult(throws[i].heads, Settle(throws[i].lineType))
  {
    seq(|throws|, i requires 0 <= i < |throws| =>
      ThrowResult(throws[i].heads, Settle(throws[i].lineType)))
  }

  /** The changed key is the original key of the settled reading, and the
      settled reading is its own changed hexagram. */
  lemma ChangedIsOriginalOfSettled(throws: seq<ThrowResult>)
    ensures ChangedKey(throws) == OriginalKey(SettleAll(throws))
    ensures ChangedKey(SettleAll(throws)) == ChangedKey(throws)
  {
  }

  /** `HEXAGRAM_NAMES[key] || '未知卦'`: the table's name for the key, or the
      unknown-hexagram name when the key is missing or its name is empty. */
  function LookupName(table: map<string, string>, key: string): (name: string)
    ensures name != ""
    ensures key in table && table[key] != "" ==> name == table[key]
    ensures key !in table || table[key] == "" ==> name == UnknownName
  {
    if key in table && table[key] != "" then table[key] else UnknownName
  }

  /** The keys and names of the original and the changed hexagram. */
  datatype Resolution = Resolution(originalKey: string, originalName: string,
                                   changedKey: string, changedName: string)

  function Resolve(throws: seq<ThrowResult>, table: map<string, string>): (r: Resolution)
    ensures |r.originalKey| == |r.changedKey| == |throws|
    ensures r.originalName != "" && r.changedName != ""
  {
    var originalKey := OriginalKey(throws);
    var changedKey := ChangedKey(throws);
    Resolution(originalKey, LookupName(table, originalKey), changedKey, LookupName(table, changedKey))
  }

  /** How the prompt names each line: "老" (old) or "少" (young), then "阳"
      or "阴" for its resting polarity. */
  function LineLabel(t: LineType): (name: string)
    ensures |name| >= 2
    ensures name[0] == (if t.IsOld() then '老' else '少')
    ensures name[1] == (if t.IsYang() then '阳' else '阴')
  {
    if t == OldYang then "老阳(动)"
    else if t == OldYin then "老阴(动)"
    else if t == Yang then "少阳"
    else "少阴"
  }

  /** Distinct lines are named differently, and exactly the old ones are
      marked as moving with "(动)" after their two-character name. */
  lemma LineLabelInjective(a: LineType, b: LineType)
    ensures LineLabel(a) == LineLabel(b) <==> a == b
    ensures a.IsOld() <==> |LineLabel(a)| == 5 && LineLabel(a)[2..] == "(动)"
    ensures !a.IsOld() ==> |LineLabel(a)| == 2
  {
  }

  /** The decimal digit for 0..9. */
  function Digit(d: nat): (c: char)
    requires d < 10
    ensures '0' <= c <= '9'
  {
    ('0' as int + d) as char
  }

  /** `String(n)` for a natural number: its decimal digits, most significant
      first. */
  function Decimal(n: nat): (s: string)
    ensures |s| >= 1
    ensures forall k :: 0 <= k < |s| ==> '0' <= s[k] <= '9'
    ensures s[0] == '0' <==> n == 0
    ensures n < 10 ==> s == [Digit(n)]
  {
    if n < 10 then [Digit(n)] else Decimal(n / 10) + [Digit(n % 10)]
  }

  /** The number a string of decimal digits denotes. */
  function DecimalValue(s: string): nat
    requires forall k :: 0 <= k < |s| ==> '0' <= s[k] <= '9'
  {
    if s == "" then 0
    else DecimalValue(s[..|s| - 1]) * 10 + (s[|s| - 1] as int - '0' as int)
  }

  /** Reading back the decimal digits gives the number. */
  lemma {:induction false} DecimalRoundTrip(n: nat)
    ensures DecimalValue(Decimal(n)) == n
  {
    if n >= 10 {
      DecimalRoundTrip(n / 10);
      var s := Decimal(n);
      assert s[..|s| - 1] == Decimal(n / 10);
    }
  }

  /** The prompt's line for the throw at index `i`, numbered from 1. */
  function DetailLine(i: nat, t: LineType): string {
    "  第" + Decimal(i + 1) + "爻: " + LineLabel(t)
  }

  /** The line list of the prompt's six-line section, bottom line first. */
  function DetailLines(throws: seq<ThrowResult>): (lines: seq<string>)
    ensures |lines| == |throws|
    ensures forall i :: 0 <= i < |lines| ==> lines[i] == DetailLine(i, throws[i].lineType)
  {
    seq(|throws|, i requires 0 <= i < |throws| => DetailLine(i, throws[i].lineType))
  }

  /** No detail line contains a line break. */
  lemma DetailLineSingle(i: nat, t: LineType)
    ensures '\n' !in DetailLine(i, t)
  {
  }

  /** The prompt's lines before the six-line section. */
  function HeaderLines(data: DivinationData, r: Resolution): (lines: seq<string>)
    ensures |lines| == DetailsStart
  {
    [ Persona,
      "  ",
      "用户咨询：" + data.kind.Label(),
      "具体问题：" + data.question,
      "",
      "起卦详情：",
      "- 本卦：" + r.originalName + " (" + r.originalKey + ")",
      "- 变卦：" + r.changedName + " (" + r.changedKey + ")",
      "- 六爻详情（由下至上）："
    ]
  }

  /** The prompt's lines after the six-line section: the structure the reply
      is asked to follow. */
  function TrailerLines(question: string): (lines: seq<string>)
    ensures |lines| == 10
  {
    [ "",
      "请按以下结构提供深度解析：",
      "### 1. 卦象全解",
      "解析本卦与变卦的整体吉凶，阐述当前态势。",
      "### 2. 动爻玄机",
      "重点分析动爻对咨询问题的具体预示。",
      "### 3. 行动建议",
      "根据易理，针对 \"" + question + "\" 给出具体的行动指南。",
      "### 4. 易经寄语",
      "一句短语总结应对之道。"
    ]
  }

  /** The prompt's opening line, which casts the reader of the prompt. */
  const Persona: string := "你是一位精通《周易》六爻、传统易理与现代心理学的解卦宗师。"

  /** The number of prompt lines before the six-line section. */
  const DetailsStart: nat := 9

  /** The prompt sent to the text-generation service: the template's lines
      joined by line breaks, the six-line section being the detail lines
      joined by line breaks. */
  function Prompt(data: DivinationData, table: map<string, string>): (prompt: string)
    ensures |prompt| > |Persona| && prompt[..|Persona| + 1] == Persona + "\n"
  {
    var r := Resolve(data.throws, table);
    Join(HeaderLines(data, r) + [Join(DetailLines(data.throws), '\n')] + TrailerLines(data.question), '\n')
  }

  lemma HeaderSingle(data: DivinationData, r: Resolution)
    requires '\n' !in data.question
    requires '\n' !in r.originalName && '\n' !in r.changedName
    requires '\n' !in r.originalKey && '\n' !in r.changedKey
    ensures forall k :: 0 <= k < DetailsStart ==> '\n' !in HeaderLines(data, r)[k]
  {
  }

  lemma TrailerSingle(question: string)
    requires '\n' !in question
    ensures forall k :: 0 <= k < 10 ==> '\n' !in TrailerLines(question)[k]
  {
  }

  /** Where neither the question nor any name in the table contains a line
      break, the prompt's lines from the tenth on are the detail lines, one
      per throw, bottom line first, and ten more lines follow them. */
  lemma {:induction false} PromptListsLines(data: DivinationData, table: map<string, string>)
    requires |data.throws| >= 1
    requires '\n' !in data.question
    requires forall k :: k in table ==> '\n' !in table[k]
    ensures Split(Prompt(data, table), '\n') ==
      HeaderLines(data, Resolve(data.throws, table)) + DetailLines(data.throws) + TrailerLines(data.question)
    ensures |Split(Prompt(data, table), '\n')| == DetailsStart + |data.throws| + 10
    ensures forall i :: 0 <= i < |data.throws| ==>
      Split(Prompt(data, table), '\n')[DetailsStart + i] == DetailLine(i, data.throws[i].lineType)
  {
    var r := Resolve(data.throws, table);
    var details := DetailLines(data.throws);
    forall i | 0 <= i < |details| ensures '\n' !in details[i] {
      DetailLineSingle(i, data.throws[i].lineType);
    }
    assert '\n' !in r.originalKey && '\n' !in r.changedKey;
    HeaderSingle(data, r);
    TrailerSingle(data.question);
    SplitNested(HeaderLines(data, r), details, TrailerLines(data.question), '\n');
  }

  /** For any non-empty reading, whatever the question and the names hold,
      the prompt is the header lines, one detail line per throw, and the
      trailer lines, joined by line breaks. */
  lemma PromptIsLines(data: DivinationData, table: map<string, string>)
    requires |data.throws| >= 1
    ensures Prompt(data, table) ==
      Join(HeaderLines(data, Resolve(data.throws, table)) + DetailLines(data.throws) +
           TrailerLines(data.question), '\n')
  {
    var r := Resolve(data.throws, table);
    JoinFlatten(HeaderLines(data, r), DetailLines(data.throws), TrailerLines(data.question), '\n');
  }

  /** The remote service's answer: an HTTP status and the content of the
      first choice, or no answer at all. The content is `None` when reading it
      throws: the body does not parse as JSON, or it parses but has no
      `choices[0].message`. A `message` whose `content` is null or absent is
      taken as "". */
  datatype HttpReply = Received(status: int, content: Option<string>) | Unreachable

  /** What the service returns to its caller. */
  datatype Outcome = Replied(text: string) | Failed(message: string)

  /** The service's result for a reply: the content of a successful (2xx)
      reply with a parsable body; any other reply, and no reply, fail with the
      one blocked-connection message (the status message raised for a
      non-2xx reply is replaced by it in the handler). */
  function Interpret(reply: HttpReply): (o: Outcome)
    ensures o.Failed? ==> o.message == BlockedMessage
    ensures o.Replied? <==>
      reply.Received? && 200 <= reply.status <= 299 && reply.content.Some?
    ensures o.Replied? ==> o.text == reply.content.value
  {
    match reply
    case Unreachable => Failed(BlockedMessage)
    case Received(status, content) =>
      if !(200 <= status <= 299) then Failed(BlockedMessage)
      else if content.None? then Failed(BlockedMessage)
      else Replied(content.value)
  }
}
