/** The conversation session as a value: the transcript, the selected product
    and the customer-care flag, with one function per thing the page does to
    them. The class in module App performs the same steps in place. */
module Conversation {
  import opened Wrappers
  import opened Text
  import opened Catalog

  /** Who produced a turn; "model" is the source's name for the assistant. */
  datatype Role = User | Model

  /** One message of the transcript (the source's one-element `parts` list, without its timestamp). */
  datatype Turn = Turn(role: Role, text: string)

  datatype SessionState = SessionState(
    chatHistory: seq<Turn>,
    productSelected: Option<string>,
    talkCustomerCare: bool)

  /** What a submission produced for the caller. */
  datatype Outcome =
    | NoInput                 // nothing was typed: the submit branch does not run
    | Replied(reply: string)  // a model turn holding `reply` was appended
    | ServiceFailure          // the model call raised: no model turn was appended

  datatype Exchange = Exchange(after: SessionState, outcome: Outcome)

  /** The external language model: the whole transcript in, a reply or a failure out. */
  type Generator = seq<Turn> -> Option<string>

  ghost predicate WellFormed(s: SessionState) {
    IsCatalogSelection(s.productSelected)
  }

  /** The greeting for the hour of day the session starts in. */
  function Greeting(hour: nat): (greeting: string)
    requires hour < 24
    ensures greeting == "Good morning!" <==> hour < 12
    ensures greeting == "Good afternoon!" <==> 12 <= hour < 18
    ensures greeting == "Good evening!" <==> 18 <= hour
  {
    if hour < 12 then "Good morning!" else if hour < 18 then "Good afternoon!" else "Good evening!"
  }

  /** The greeting as line 61 computes it: the clock is read once for the first
      comparison and again for the second. */
  function GreetingAsWritten(firstHour: nat, secondHour: nat): (greeting: string)
    requires firstHour < 24 && secondHour < 24
    ensures firstHour == secondHour ==> greeting == Greeting(firstHour)
  {
    if firstHour < 12 then "Good morning!" else if secondHour < 18 then "Good afternoon!" else "Good evening!"
  }

  /** Within one day (the second reading not earlier), one of the two readings explains the greeting. */
  lemma GreetingAsWrittenSameDay(firstHour: nat, secondHour: nat)
    requires firstHour <= secondHour < 24
    ensures GreetingAsWritten(firstHour, secondHour) == Greeting(firstHour)
         || GreetingAsWritten(firstHour, secondHour) == Greeting(secondHour)
  {
  }

  /** Across midnight (23:59 then 00:00) the page greets with "Good afternoon!",
      which neither reading calls for. */
  lemma GreetingAcrossMidnight()
    ensures GreetingAsWritten(23, 0) == "Good afternoon!"
    ensures GreetingAsWritten(23, 0) != Greeting(23) && GreetingAsWritten(23, 0) != Greeting(0)
  {
  }

  const HelloTurn: Turn := Turn(User, "Hello")

  /** The two seed turns of a new session. */
  function SeedTurns(hour: nat): (turns: seq<Turn>)
    requires hour < 24
    ensures |turns| == 2 && turns[0] == Turn(User, "Hello") && turns[1].role == Model
    ensures Contains(turns[1].text, Greeting(hour))
  {
    var greeting := Greeting(hour);
    ContainsInfix("Hi! I\U{2019}m your order assistant bot. ", greeting, " What would you like to order today?");
    [HelloTurn,
     Turn(Model, "Hi! I\U{2019}m your order assistant bot. " + greeting + " What would you like to order today?")]
  }

  /** The two seed turns after the history is cleared. */
  const ClearedTurns: seq<Turn> :=
    [HelloTurn,
     Turn(Model, "Hi again! Let\U{2019}s start a fresh order. What would you like to order today?")]

  /** The state the page creates on its first run. */
  function Initial(hour: nat): (s: SessionState)
    requires hour < 24
    ensures WellFormed(s) && |s.chatHistory| == 2
    ensures s.chatHistory == SeedTurns(hour) && s.productSelected == None && !s.talkCustomerCare
  {
    SessionState(SeedTurns(hour), None, false)
  }

  /** The select box: the sentinel leaves the selection alone, any catalog key replaces it. */
  function Selected(s: SessionState, choice: string): (r: SessionState)
    requires choice == NoSelection || choice in Products
    ensures r.chatHistory == s.chatHistory && r.talkCustomerCare == s.talkCustomerCare
    ensures WellFormed(s) ==> WellFormed(r)
  {
    if choice != NoSelection then s.(productSelected := Some(choice)) else s
  }

  /** The customer-care checkbox. */
  function WithCustomerCare(s: SessionState, flag: bool): (r: SessionState)
    ensures r.talkCustomerCare == flag
    ensures r.chatHistory == s.chatHistory && r.productSelected == s.productSelected
  {
    s.(talkCustomerCare := flag)
  }

  /** The state after "Clear Chat History"; it does not depend on the state before. */
  function Cleared(): (s: SessionState)
    ensures WellFormed(s) && |s.chatHistory| == 2
  {
    SessionState(ClearedTurns, None, false)
  }

  /** One submission of `userInput`. */
  function Submitted(s: SessionState, userInput: string, generate: Generator): (r: Exchange)
    requires WellFormed(s)
    ensures WellFormed(r.after)
    ensures r.after.productSelected == s.productSelected && r.after.talkCustomerCare == s.talkCustomerCare
    ensures r.outcome.NoInput? <==> userInput == ""
    ensures r.outcome.NoInput? ==> r.after == s
    ensures |s.chatHistory| <= |r.after.chatHistory| && r.after.chatHistory[..|s.chatHistory|] == s.chatHistory
    ensures |r.after.chatHistory| == |s.chatHistory| + (match r.outcome
                                                         case NoInput => 0
                                                         case ServiceFailure => 1
                                                         case Replied(_) => 2)
    ensures !r.outcome.NoInput? ==> r.after.chatHistory[|s.chatHistory|].role == User
    ensures r.outcome.Replied? ==> r.after.chatHistory[|s.chatHistory| + 1] == Turn(Model, r.outcome.reply)
  {
    if userInput == "" then
      Exchange(s, NoInput)
    else if s.talkCustomerCare then
      var h := s.chatHistory + [Turn(User, userInput)] + [Turn(Model, CareReply)];
      Exchange(s.(chatHistory := h), Replied(CareReply))
    else
      var sent := s.chatHistory + [Turn(User, OutgoingMessage(s.productSelected, userInput))];
      match generate(sent)
      case None => Exchange(s.(chatHistory := sent), ServiceFailure)
      case Some(reply) => Exchange(s.(chatHistory := sent + [Turn(Model, reply)]), Replied(reply))
  }

  /** One run of the page script: select box, checkbox, clear button, then the chat input. */
  function PagePass(s: SessionState, choice: string, careBox: bool, clearClicked: bool,
                    userInput: string, generate: Generator): (r: Exchange)
    requires WellFormed(s)
    requires choice == NoSelection || choice in Products
    ensures WellFormed(r.after)
    ensures clearClicked && userInput == "" ==> r.after == Cleared()
  {
    var chosen := WithCustomerCare(Selected(s, choice), careBox);
    Submitted(if clearClicked then Cleared() else chosen, userInput, generate)
  }

  // ---------------------------------------------------------------------------
  // Properties of a submission

  /** Customer-care mode: the raw input and the canned reply are appended, nothing else changes. */
  lemma CareSubmission(s: SessionState, userInput: string, generate: Generator)
    requires WellFormed(s) && s.talkCustomerCare && userInput != ""
    ensures Submitted(s, userInput, generate)
         == Exchange(s.(chatHistory := s.chatHistory + [Turn(User, userInput), Turn(Model, CareReply)]),
                     Replied(CareReply))
  {
  }

  /** Customer-care mode never consults the model: any two models give the same result. */
  lemma CareIgnoresModel(s: SessionState, userInput: string, g1: Generator, g2: Generator)
    requires WellFormed(s) && s.talkCustomerCare
    ensures Submitted(s, userInput, g1) == Submitted(s, userInput, g2)
  {
  }

  /** Normal mode: the outgoing message is appended, the model sees the whole transcript
      ending in it, and its reply (if any) is appended after it. */
  lemma NormalSubmission(s: SessionState, userInput: string, generate: Generator)
    requires WellFormed(s) && !s.talkCustomerCare && userInput != ""
    ensures var sent := s.chatHistory + [Turn(User, OutgoingMessage(s.productSelected, userInput))];
            var r := Submitted(s, userInput, generate);
            match generate(sent)
            case Some(reply) => r == Exchange(s.(chatHistory := sent + [Turn(Model, reply)]), Replied(reply))
            case None => r == Exchange(s.(chatHistory := sent), ServiceFailure)
  {
  }

  /** A failed call leaves only the user turn behind. */
  lemma FailedSubmission(s: SessionState, userInput: string, generate: Generator)
    requires WellFormed(s) && !s.talkCustomerCare && userInput != ""
    requires Submitted(s, userInput, generate).outcome == ServiceFailure
    ensures Submitted(s, userInput, generate).after
         == s.(chatHistory := s.chatHistory + [Turn(User, OutgoingMessage(s.productSelected, userInput))])
  {
    NormalSubmission(s, userInput, generate);
  }

  /** After a failed call the session goes on: the next submission sends both user
      turns, in order, and appends the reply after them. */
  lemma {:induction false} FailureThenRetry(s: SessionState, first: string, second: string, g1: Generator, g2: Generator)
    requires WellFormed(s) && !s.talkCustomerCare && first != "" && second != ""
    requires Submitted(s, first, g1).outcome == ServiceFailure
    ensures var m1 := Turn(User, OutgoingMessage(s.productSelected, first));
            var m2 := Turn(User, OutgoingMessage(s.productSelected, second));
            var r := Submitted(Submitted(s, first, g1).after, second, g2);
            g2(s.chatHistory + [m1, m2]).Some? ==>
              r.after.chatHistory == s.chatHistory + [m1, m2, Turn(Model, g2(s.chatHistory + [m1, m2]).value)]
  {
    var m1 := Turn(User, OutgoingMessage(s.productSelected, first));
    var m2 := Turn(User, OutgoingMessage(s.productSelected, second));
    FailedSubmission(s, first, g1);
    var t := Submitted(s, first, g1).after;
    assert t.chatHistory == s.chatHistory + [m1];
    NormalSubmission(t, second, g2);
    assert t.chatHistory + [m2] == s.chatHistory + [m1, m2];
    var reply := g2(s.chatHistory + [m1, m2]);
    if reply.Some? {
      assert t.chatHistory + [m2] + [Turn(Model, reply.value)] == s.chatHistory + [m1, m2, Turn(Model, reply.value)];
    }
  }

  // ---------------------------------------------------------------------------
  // Selection, mode and reset

  /** Choosing the same entry twice is the same as choosing it once. */
  lemma SelectIdempotent(s: SessionState, choice: string)
    requires choice == NoSelection || choice in Products
    ensures Selected(Selected(s, choice), choice) == Selected(s, choice)
  {
  }

  /** Choosing a catalog key selects it; the sentinel keeps the previous selection. */
  lemma SelectEffect(s: SessionState, choice: string)
    requires choice == NoSelection || choice in Products
    ensures choice in Products ==> Selected(s, choice).productSelected == Some(choice)
    ensures choice == NoSelection ==> Selected(s, choice) == s
  {
    assert NoSelection !in Products;
  }

  /** The clear button wins over the widgets of the same run, whatever the state was. */
  lemma ClearIgnoresPriorState(s1: SessionState, s2: SessionState, choice: string, careBox: bool)
    requires WellFormed(s1) && WellFormed(s2)
    requires choice == NoSelection || choice in Products
    ensures PagePass(s1, choice, careBox, true, "", (h: seq<Turn>) => None)
         == PagePass(s2, choice, careBox, true, "", (h: seq<Turn>) => None)
    ensures Cleared().chatHistory == [Turn(User, "Hello"), Turn(Model, "Hi again! Let\U{2019}s start a fresh order. What would you like to order today?")]
    ensures Cleared().productSelected == None && !Cleared().talkCustomerCare
  {
  }

  /** If the widgets still show the same values on the run after a clear, the chosen
      product and the checkbox value are stored again over the cleared state
      (app.py:98 warns that a refresh is needed to reset completely). */
  lemma ClearUndoneByNextPass(s: SessionState, choice: string, careBox: bool, generate: Generator)
    requires WellFormed(s) && choice in Products
    ensures var cleared := PagePass(s, choice, careBox, true, "", generate).after;
            PagePass(cleared, choice, careBox, false, "", generate).after
            == SessionState(ClearedTurns, Some(choice), careBox)
  {
  }

  // ---------------------------------------------------------------------------
  // The transcript over many submissions

  /** Turns alternate user, model, user, ... and come in complete exchanges. */
  ghost predicate Alternating(h: seq<Turn>) {
    |h| % 2 == 0 && forall i :: 0 <= i < |h| ==> h[i].role == (if i % 2 == 0 then User else Model)
  }

  lemma SeedsAlternate(hour: nat)
    requires hour < 24
    ensures Alternating(Initial(hour).chatHistory) && Alternating(Cleared().chatHistory)
  {
  }

  /** Submitting every input in turn. */
  function SubmittedAll(s: SessionState, inputs: seq<string>, generate: Generator): (r: SessionState)
    requires WellFormed(s)
    ensures WellFormed(r)
    decreases |inputs|
  {
    if inputs == [] then s else SubmittedAll(Submitted(s, inputs[0], generate).after, inputs[1..], generate)
  }

  /** A complete exchange keeps the transcript alternating; a failed one leaves it odd. */
  lemma SubmissionKeepsAlternation(s: SessionState, userInput: string, generate: Generator)
    requires WellFormed(s) && Alternating(s.chatHistory)
    ensures var r := Submitted(s, userInput, generate);
            (r.outcome.ServiceFailure? ==> |r.after.chatHistory| % 2 == 1)
            && (!r.outcome.ServiceFailure? ==> Alternating(r.after.chatHistory))
  {
    var r := Submitted(s, userInput, generate);
    if r.outcome.Replied? {
      var n := |s.chatHistory|;
      var h := r.after.chatHistory;
      forall i | 0 <= i < |h| ensures h[i].role == (if i % 2 == 0 then User else Model) {
        if i < n {
          assert h[i] == h[..n][i];
        }
      }
    }
  }

  /** With a model that always answers, a run of non-empty submissions grows the
      transcript by two turns each, keeps what was there, and keeps it alternating. */
  lemma {:induction false} SubmittedAllGrowth(s: SessionState, inputs: seq<string>, generate: Generator)
    requires WellFormed(s) && Alternating(s.chatHistory)
    requires forall k :: 0 <= k < |inputs| ==> inputs[k] != ""
    requires forall h :: generate(h).Some?
    ensures var r := SubmittedAll(s, inputs, generate);
            |r.chatHistory| == |s.chatHistory| + 2 * |inputs|
            && r.chatHistory[..|s.chatHistory|] == s.chatHistory
            && Alternating(r.chatHistory)
            && r.productSelected == s.productSelected && r.talkCustomerCare == s.talkCustomerCare
    decreases |inputs|
  {
    if inputs != [] {
      var e := Submitted(s, inputs[0], generate);
      assert e.outcome.Replied?;
      SubmissionKeepsAlternation(s, inputs[0], generate);
      SubmittedAllGrowth(e.after, inputs[1..], generate);
      var r := SubmittedAll(e.after, inputs[1..], generate);
      assert r.chatHistory[..|s.chatHistory|] == r.chatHistory[..|e.after.chatHistory|][..|s.chatHistory|];
    }
  }

  /** The scrollback shows the transcript from its third turn on (Python's `history[2:]`). */
  function VisibleLog(h: seq<Turn>): (shown: seq<Turn>)
    ensures |shown| == if |h| < 2 then 0 else |h| - 2
    ensures forall i :: 0 <= i < |shown| ==> shown[i] == h[i + 2]
  {
    if |h| < 2 then [] else h[2..]
  }

  /** The seed turns are never shown; a submission shows exactly the turns it appended. */
  lemma VisibleLogOfSubmission(s: SessionState, userInput: string, generate: Generator)
    requires WellFormed(s) && |s.chatHistory| >= 2
    ensures VisibleLog(Cleared().chatHistory) == []
    ensures var h := Submitted(s, userInput, generate).after.chatHistory;
            VisibleLog(h) == VisibleLog(s.chatHistory) + h[|s.chatHistory|..]
  {
  }
}
