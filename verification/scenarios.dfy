/** End-to-end runs of the model: coins in, keys and names out. */
module Scenarios {
  import opened Types
  import opened Coins
  import opened Oracle
  import AppFlow
  import Text

  /** Six throws, each with two inscribed faces, give six young yang lines:
      both keys are all ones. */
  lemma AllYoungYang()
    ensures var throws := seq(6, _ => ThrowOf([1, 1, 0]));
      OriginalKey(throws) == "111111" && ChangedKey(throws) == "111111"
  {
  }

  /** A first throw with no inscribed face (old yang) under five young yang
      lines: the original key is all ones and the changed key turns the first
      (bottom) character to '0'. */
  lemma BottomOldYang()
    ensures var throws := [ThrowOf([0, 0, 0])] + seq(5, _ => ThrowOf([1, 0, 1]));
      OriginalKey(throws) == "111111" && ChangedKey(throws) == "011111"
  {
  }

  /** A user clicking seven times: the sixth landing hands on the six throws,
      and the seventh click hands on nothing and leaves the throws as they
      were. */
  method SevenClicks(c: seq<Bit>) returns (reading: Option<seq<ThrowResult>>,
                                           again: Option<seq<ThrowResult>>, after: seq<ThrowResult>)
    requires |c| == 3
    ensures reading == Some(seq(6, _ => ThrowOf(c)))
    ensures again == None && after == seq(6, _ => ThrowOf(c))
  {
    var t := new CoinThrower();
    var r := t.HandleThrow(c);
    assert r == None;
    r := t.HandleThrow(c);
    r := t.HandleThrow(c);
    r := t.HandleThrow(c);
    r := t.HandleThrow(c);
    assert r == None;
    reading := t.HandleThrow(c);
    assert t.throws == seq(6, _ => ThrowOf(c));
    again := t.HandleThrow(c);
    after := t.throws;
  }

  /** A new application on the coin-throwing page after `question` was
      typed and confirmed. */
  method OnCoinPage(question: string) returns (app: AppFlow.App)
    requires !Text.AllWhitespace(question)
    ensures fresh(app) && app.Valid()
    ensures app.step == Divination && !app.loading && app.error == None
    ensures app.form.question == question
  {
    app := new AppFlow.App();
    app.StartDivination();
    app.EditQuestion(question);
    app.HandleInputConfirm();
  }

  /** A user who goes back to the input page while the request is
      outstanding is still taken to the result page when the reply arrives:
      the reply of an abandoned request is not discarded. */
  method BackThenReply(question: string, throws: seq<ThrowResult>, reply: HttpReply)
    returns (step: AppStep, text: string)
    requires !Text.AllWhitespace(question)
    requires Interpret(reply).Replied? && Interpret(reply).text != ""
    ensures step == Result && text == Interpret(reply).text
  {
    var app := OnCoinPage(question);
    app.BeginRequest(app.form, throws);
    app.GoBack();
    assert app.step == Input && app.loading;
    app.FinishRequest(reply);
    step, text := app.step, app.resultText;
  }

  /** A failure that arrives after the user went back to the input page is
      kept: confirming the question again shows the error view instead of
      the coins. */
  method BackThenFailure(question: string, throws: seq<ThrowResult>, reply: HttpReply)
    returns (view: AppFlow.View)
    requires !Text.AllWhitespace(question)
    requires Interpret(reply).Failed?
    ensures view == AppFlow.ErrorView(BlockedMessage)
  {
    var app := OnCoinPage(question);
    app.BeginRequest(app.form, throws);
    app.GoBack();
    app.FinishRequest(reply);
    assert app.step == Input;
    app.HandleInputConfirm();
    view := app.DivinationView();
  }
}
