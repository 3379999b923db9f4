/** The page's `st.session_state` as an object whose fields are updated in place,
    one method per control of the page. Each method states its new state field by
    field and ties it to the matching function of module Conversation. */
module App {
  import opened Wrappers
  import opened Catalog
  import opened Conversation

  class Session {
    var chatHistory: seq<Turn>
    var productSelected: Option<string>
    var talkCustomerCare: bool

    /** The session's current value. */
    function State(): SessionState
      reads this
    {
      SessionState(chatHistory, productSelected, talkCustomerCare)
    }

    ghost predicate Valid()
      reads this
    {
      IsCatalogSelection(productSelected)
    }

    /** First run of the page: the seed exchange greets by the hour, nothing is selected. */
    constructor (hour: nat)
      requires hour < 24
      ensures Valid()
      ensures chatHistory == SeedTurns(hour) && productSelected == None && !talkCustomerCare
      ensures State() == Initial(hour)
    {
      var greeting := Greeting(hour);
      chatHistory := [HelloTurn,
                      Turn(Model, "Hi! I\U{2019}m your order assistant bot. " + greeting + " What would you like to order today?")];
      productSelected := None;
      talkCustomerCare := false;
    }

    /** The select box's value: a catalog key is stored, the sentinel is ignored. */
    method SelectProduct(choice: string)
      requires Valid()
      requires choice == NoSelection || choice in Products
      modifies this
      ensures Valid()
      ensures productSelected == (if choice != NoSelection then Some(choice) else old(productSelected))
      ensures chatHistory == old(chatHistory) && talkCustomerCare == old(talkCustomerCare)
      ensures State() == Selected(old(State()), choice)
    {
      if choice != NoSelection {
        productSelected := Some(choice);
      }
    }

    /** The customer-care checkbox's value is stored as the mode. */
    method SetCustomerCare(flag: bool)
      requires Valid()
      modifies this
      ensures Valid()
      ensures talkCustomerCare == flag
      ensures chatHistory == old(chatHistory) && productSelected == old(productSelected)
      ensures State() == WithCustomerCare(old(State()), flag)
    {
      talkCustomerCare := flag;
    }

    /** "Clear Chat History": fresh seed turns, no product, normal mode, whatever came before. */
    method ClearHistory()
      requires Valid()
      modifies this
      ensures Valid()
      ensures chatHistory == ClearedTurns && productSelected == None && !talkCustomerCare
      ensures State() == Cleared()
    {
      chatHistory := [HelloTurn,
                      Turn(Model, "Hi again! Let\U{2019}s start a fresh order. What would you like to order today?")];
      productSelected := None;
      talkCustomerCare := false;
    }

    /** The chat input. Customer-care mode appends the raw input and the canned reply;
        normal mode appends the outgoing message, hands the whole transcript to
        `generate` and appends its reply, or stops after the user turn when it fails. */
    method Submit(userInput: string, generate: Generator) returns (outcome: Outcome)
      requires Valid()
      modifies this
      ensures Valid()
      ensures productSelected == old(productSelected) && talkCustomerCare == old(talkCustomerCare)
      ensures userInput == "" ==> chatHistory == old(chatHistory) && outcome == NoInput
      ensures userInput != "" && old(talkCustomerCare) ==>
                chatHistory == old(chatHistory) + [Turn(User, userInput), Turn(Model, CareReply)]
                && outcome == Replied(CareReply)
      ensures userInput != "" && !old(talkCustomerCare) ==>
                var sent := old(chatHistory) + [Turn(User, OutgoingMessage(old(productSelected), userInput))];
                match generate(sent)
                case Some(reply) => chatHistory == sent + [Turn(Model, reply)] && outcome == Replied(reply)
                case None => chatHistory == sent && outcome == ServiceFailure
      ensures Exchange(State(), outcome) == Submitted(old(State()), userInput, generate)
    {
      if userInput == "" {
        outcome := NoInput;
        return;
      }
      var selected := productSelected;
      if talkCustomerCare {
        var botReply := CareReply;
        chatHistory := chatHistory + [Turn(User, userInput)];
        chatHistory := chatHistory + [Turn(Model, botReply)];
        outcome := Replied(botReply);
      } else {
        var finalMessage := ContextPrefix(selected, userInput) + userInput;
        chatHistory := chatHistory + [Turn(User, finalMessage)];
        var response := generate(chatHistory);
        match response
        case None =>
          // the model call raised: the run stops before the reply is appended
          outcome := ServiceFailure;
        case Some(botReply) =>
          chatHistory := chatHistory + [Turn(Model, botReply)];
          outcome := Replied(botReply);
      }
    }

    /** One run of the page script, its controls in the order the script reads them. */
    method Rerun(choice: string, careBox: bool, clearClicked: bool, userInput: string, generate: Generator)
      returns (outcome: Outcome)
      requires Valid()
      requires choice == NoSelection || choice in Products
      modifies this
      ensures Valid()
      ensures Exchange(State(), outcome) == PagePass(old(State()), choice, careBox, clearClicked, userInput, generate)
    {
      SelectProduct(choice);
      SetCustomerCare(careBox);
      if clearClicked {
        ClearHistory();
      }
      outcome := Submit(userInput, generate);
    }
  }
}
