/** The fixed product catalog, the customer-care reply, and the rule that
    prefixes a user message with the selected product when the message does
    not already name it. */
module Catalog {
  import opened Wrappers
  import opened Text

  /** Product name to one-line description; read-only for the whole run. */
  const Products: map<string, string> := map[
    "Smartphone" := "128GB, Dual SIM, AMOLED display",
    "Laptop" := "16GB RAM, 512GB SSD, Intel i7",
    "Headphones" := "Wireless, Noise Cancelling",
    "Smartwatch" := "Fitness tracker, Heart-rate monitor",
    "Camera" := "DSLR, 24MP, 4K Video"
  ]

  /** The select box's first option, meaning "no product chosen". */
  const NoSelection: string := "-- Select --"

  const CustomerCareNumber: string := "+1-800-555-1234"

  /** The canned reply given in customer-care mode. */
  const CareReply: string := "Please call our Customer Care at " + CustomerCareNumber + " for assistance."

  /** A selection the session may hold: nothing, or a catalog key. */
  predicate IsCatalogSelection(selected: Option<string>) {
    selected.Some? ==> selected.value in Products
  }

  /** The user's text names the product, compared case-insensitively as a plain substring. */
  predicate Mentions(text: string, product: string)
    ensures Mentions(text, product) <==> exists i :: OccursAt(ToLower(product), ToLower(text), i)
  {
    ContainsIff(ToLower(text), ToLower(product));
    Contains(ToLower(text), ToLower(product))
  }

  /** The sentence prepended when a product is selected but not named in the input. */
  function ContextPrefix(selected: Option<string>, userInput: string): (prefix: string)
    requires IsCatalogSelection(selected)
    ensures prefix != "" <==> selected.Some? && !Mentions(userInput, selected.value)
  {
    if selected.Some? && !Mentions(userInput, selected.value) then
      "I would like to order a " + selected.value + " (" + Products[selected.value] + "). "
    else
      ""
  }

  /** The text stored as the user's turn and sent to the model in normal mode. */
  function OutgoingMessage(selected: Option<string>, userInput: string): (message: string)
    requires IsCatalogSelection(selected)
    ensures |userInput| <= |message| && message[|message| - |userInput|..] == userInput
    ensures message == userInput <==> selected.None? || Mentions(userInput, selected.value)
  {
    ContextPrefix(selected, userInput) + userInput
  }

  /** With the product named in the input already, the input is sent as it is. */
  lemma OutgoingUnchangedWhenMentioned(product: string, userInput: string)
    requires product in Products && Mentions(userInput, product)
    ensures OutgoingMessage(Some(product), userInput) == userInput
  {
  }

  /** With a product selected but not named, the stated order sentence comes first. */
  lemma OutgoingPrefixedWhenNotMentioned(product: string, userInput: string)
    requires product in Products && !Mentions(userInput, product)
    ensures OutgoingMessage(Some(product), userInput)
         == "I would like to order a " + product + " (" + Products[product] + "). " + userInput
  {
  }

  /** The order sentence names the product it is built from, whatever follows it. */
  lemma {:induction false} OrderSentenceMentions(product: string, details: string, userInput: string)
    ensures Mentions("I would like to order a " + product + " (" + details + "). " + userInput, product)
  {
    var lead := "I would like to order a ";
    var tail := " (" + details + "). " + userInput;
    assert lead + product + " (" + details + "). " + userInput == lead + product + tail;
    ToLowerAppend(lead + product, tail);
    ToLowerAppend(lead, product);
    ContainsInfix(ToLower(lead), ToLower(product), ToLower(tail));
  }

  /** Whatever the user typed, the message sent names the selected product. */
  lemma OutgoingMentionsProduct(product: string, userInput: string)
    requires product in Products
    ensures Mentions(OutgoingMessage(Some(product), userInput), product)
  {
    if !Mentions(userInput, product) {
      OrderSentenceMentions(product, Products[product], userInput);
    }
  }

  /** Injecting the context into an already augmented message changes nothing. */
  lemma OutgoingIdempotent(selected: Option<string>, userInput: string)
    requires IsCatalogSelection(selected)
    ensures OutgoingMessage(selected, OutgoingMessage(selected, userInput)) == OutgoingMessage(selected, userInput)
  {
    if selected.Some? {
      OutgoingMentionsProduct(selected.value, userInput);
    }
  }

  /** The canned reply carries the contact number. */
  lemma CareReplyHasNumber()
    ensures Contains(CareReply, CustomerCareNumber)
  {
    ContainsInfix("Please call our Customer Care at ", CustomerCareNumber, " for assistance.");
  }
}
