/** The eco-assistant chat (chatbot/ChatbotViewModel.kt): its records, the keyword
    matcher that chooses the pool a reply is drawn from, and the view-model that loads
    the response table, sends messages and clears the chat.

    `List.random()` is a nondeterministic choice from the list; on an empty list it
    throws, which the methods report as `None` or as `false`. Clock readings are
    parameters. */
module Chatbot {
  import opened Wrappers
  import opened Text

  datatype ChatMessage = ChatMessage(id: string, content: string, isFromUser: bool, timestamp: nat)

  datatype CategoryResponses = CategoryResponses(keywords: seq<string>, responses: seq<string>)

  /** The parsed response table. The categories keep the order of the JSON object;
      `greetings` is `None` when the field is absent. */
  datatype ChatbotData = ChatbotData(
    greetings: Option<seq<string>>,
    categories: seq<(string, CategoryResponses)>,
    fallback: seq<string>,
    encouragement: seq<string>)

  datatype ChatbotState = ChatbotState(
    messages: seq<ChatMessage> := [],
    isTyping: bool := false,
    currentInput: string := "",
    isLoading: bool := true,
    error: Option<string> := None)

  const DefaultGreeting := "Hello! How can I help you today?"
  const TroubleReply := "I'm having trouble thinking right now. Please try again!"
  /** The message of the exception `random()` throws on an empty list. */
  const EmptyCollection := "Collection is empty."

  // ---------------------------------------------------------------------------
  // Keyword matching

  /** Some keyword of the list occurs in the input. */
  predicate AnyKeyword(keywords: seq<string>, input: string) {
    exists m :: 0 <= m < |keywords| && Contains(input, keywords[m])
  }

  /** The index of the first category, in table order, one of whose keywords occurs in
      the input. */
  function FirstMatch(categories: seq<(string, CategoryResponses)>, input: string): (r: Option<nat>)
    ensures r.None? <==> forall j :: 0 <= j < |categories| ==> !AnyKeyword(categories[j].1.keywords, input)
    ensures r.Some? ==> r.value < |categories| && AnyKeyword(categories[r.value].1.keywords, input)
    ensures r.Some? ==> forall j :: 0 <= j < r.value ==> !AnyKeyword(categories[j].1.keywords, input)
  {
    if categories == [] then None
    else if AnyKeyword(categories[0].1.keywords, input) then Some(0)
    else
      var rest := FirstMatch(categories[1..], input);
      assert forall j :: 1 <= j < |categories| ==> categories[j] == categories[1..][j - 1];
      if rest.Some? then Some(rest.value + 1) else None
  }

  /** The list a reply to `input` is drawn from: the matched category's responses, or,
      without a match, the encouragements when the roll exceeds 0.7 and the fallbacks
      otherwise. Without a table the reply is fixed. */
  function ReplyPool(data: Option<ChatbotData>, input: string, roll: real): (pool: seq<string>)
    ensures data.None? ==> pool == [TroubleReply]
    ensures data.Some? && FirstMatch(data.value.categories, input).Some? ==>
      pool == data.value.categories[FirstMatch(data.value.categories, input).value].1.responses
    ensures data.Some? && FirstMatch(data.value.categories, input).None? ==>
      pool == (if roll > 0.7 then data.value.encouragement else data.value.fallback)
  {
    if data.None? then [TroubleReply]
    else
      var m := FirstMatch(data.value.categories, input);
      if m.Some? then data.value.categories[m.value].1.responses
      else if roll > 0.7 then data.value.encouragement
      else data.value.fallback
  }

  /** Picks one element of `xs`, or `None` where `random()` would throw. */
  method RandomElement(xs: seq<string>) returns (r: Option<string>)
    ensures r.None? <==> xs == []
    ensures r.Some? ==> r.value in xs
  {
    if xs == [] {
      r := None;
    } else {
      assert xs[0] in xs;
      var x :| x in xs;
      r := Some(x);
    }
  }

  /** `generateResponse`: the categories in table order and each category's keywords in
      list order; the first keyword found in the input decides the category. */
  method GenerateResponse(data: Option<ChatbotData>, input: string, roll: real) returns (r: Option<string>)
    ensures r.None? <==> ReplyPool(data, input, roll) == []
    ensures r.Some? ==> r.value in ReplyPool(data, input, roll)
  {
    if data.None? {
      return Some(TroubleReply);
    }
    var categories := data.value.categories;
    var i := 0;
    while i < |categories|
      invariant 0 <= i <= |categories|
      invariant forall j :: 0 <= j < i ==> !AnyKeyword(categories[j].1.keywords, input)
    {
      var keywords := categories[i].1.keywords;
      var k := 0;
      while k < |keywords|
        invariant 0 <= k <= |keywords|
        invariant forall m :: 0 <= m < k ==> !Contains(input, keywords[m])
      {
        if Contains(input, keywords[k]) {
          assert AnyKeyword(categories[i].1.keywords, input);
          assert FirstMatch(categories, input) == Some(i) by {
            var f := FirstMatch(categories, input);
            if f.None? || f.value != i {
              assert false;
            }
          }
          r := RandomElement(categories[i].1.responses);
          return;
        }
        k := k + 1;
      }
      i := i + 1;
    }
    if roll > 0.7 {
      r := RandomElement(data.value.encouragement);
    } else {
      r := RandomElement(data.value.fallback);
    }
  }

  /** The input is lower-cased before matching and the keywords are not: a category
      whose every keyword holds an upper-case letter is never chosen. */
  lemma UpperCaseCategoryNeverChosen(categories: seq<(string, CategoryResponses)>, input: string, i: nat)
    requires i < |categories|
    requires forall m :: 0 <= m < |categories[i].1.keywords| ==>
      exists j :: 0 <= j < |categories[i].1.keywords[m]| && IsUpper(categories[i].1.keywords[m][j])
    ensures FirstMatch(categories, Lower(input)) != Some(i)
  {
    var keywords := categories[i].1.keywords;
    forall m | 0 <= m < |keywords|
      ensures !Contains(Lower(input), keywords[m])
    {
      var j :| 0 <= j < |keywords[m]| && IsUpper(keywords[m][j]);
      UpperNeverContainedInLower(input, keywords[m], j);
    }
  }

  /** An empty keyword occurs in every input, so no category after one holding it is
      ever chosen. */
  lemma EmptyKeywordShadowsLaterCategories(categories: seq<(string, CategoryResponses)>, input: string, i: nat)
    requires i < |categories| && "" in categories[i].1.keywords
    ensures FirstMatch(categories, input).Some? && FirstMatch(categories, input).value <= i
  {
    var m :| 0 <= m < |categories[i].1.keywords| && categories[i].1.keywords[m] == "";
    assert StartsWith(input, "");
    assert AnyKeyword(categories[i].1.keywords, input);
  }

  // ---------------------------------------------------------------------------
  // Messages

  /** The greetings a greeting is drawn from: the table's, or the built-in one when
      there is no table or it has no greetings field. */
  function GreetingPool(data: Option<ChatbotData>): (pool: seq<string>)
    ensures data.None? || data.value.greetings.None? ==> pool == [DefaultGreeting]
    ensures data.Some? && data.value.greetings.Some? ==> pool == data.value.greetings.value
  {
    if data.Some? && data.value.greetings.Some? then data.value.greetings.value else [DefaultGreeting]
  }

  /** A message id: its kind, an underscore and the clock in milliseconds. */
  function MessageId(kind: string, now: nat): (id: string)
    ensures |id| > |kind| + 1 && id[..|kind| + 1] == kind + "_" && AllDigits(id[|kind| + 1..])
  {
    kind + "_" + NatToString(now)
  }

  predicate IsGreetingAt(m: ChatMessage, now: nat) {
    !m.isFromUser && m.id == MessageId("greeting", now) && m.timestamp == now
  }

  class ChatbotViewModel {
    var state: ChatbotState
    var chatbotData: Option<ChatbotData>

    /** The initial state; the load that `init` launches is the first `LoadChatbotData` call. */
    constructor ()
      ensures state == ChatbotState()
      ensures state.messages == [] && state.isLoading && chatbotData.None?
    {
      state := ChatbotState();
      chatbotData := None;
    }

    /** `loadChatbotData` after the asset has been read and parsed. A parse failure
        keeps the previous table and messages; a parsed table is kept even when drawing
        the greeting from it throws. */
    method LoadChatbotData(parsed: LoadResult<ChatbotData>, now: nat) returns (ghost whileLoading: ChatbotState)
      modifies this
      ensures whileLoading == old(state).(isLoading := true)
      ensures !state.isLoading
      ensures parsed.LoadFailed? ==>
        chatbotData == old(chatbotData)
        && state == whileLoading.(isLoading := false, error := Some(MessageOr(parsed.message, "Failed to load chatbot data")))
      ensures parsed.Loaded? ==> chatbotData == Some(parsed.data)
      ensures parsed.Loaded? && GreetingPool(Some(parsed.data)) == [] ==>
        state == whileLoading.(isLoading := false, error := Some(EmptyCollection))
      ensures parsed.Loaded? && GreetingPool(Some(parsed.data)) != [] ==>
        |state.messages| == 1 && IsGreetingAt(state.messages[0], now)
        && state.messages[0].content in GreetingPool(Some(parsed.data))
        && state == whileLoading.(messages := state.messages, isLoading := false)
    {
      state := state.(isLoading := true);
      whileLoading := state;
      match parsed
      case LoadFailed(message) =>
        state := state.(isLoading := false, error := Some(MessageOr(message, "Failed to load chatbot data")));
      case Loaded(data) =>
        chatbotData := Some(data);
        var greeting := RandomElement(GreetingPool(chatbotData));
        if greeting.None? {
          state := state.(isLoading := false, error := Some(EmptyCollection));
        } else {
          var initial := ChatMessage(MessageId("greeting", now), greeting.value, false, now);
          state := state.(messages := [initial], isLoading := false);
        }
    }

    method UpdateInput(input: string)
      modifies this
      ensures state == old(state).(currentInput := input)
      ensures chatbotData == old(chatbotData)
    {
      state := state.(currentInput := input);
    }

    /** `sendMessage`. A blank input is ignored. Otherwise the trimmed text is posted as
        the user's message, the input is cleared and the typing indicator shown
        (`whileTyping`); then the reply to the lower-cased text is posted and the
        indicator hidden. `replied` is false where drawing the reply threw, which
        leaves the indicator on. */
    method SendMessage(roll: real, userTime: nat, botTime: nat)
      returns (accepted: bool, replied: bool, ghost whileTyping: ChatbotState)
      modifies this
      ensures chatbotData == old(chatbotData)
      ensures accepted <==> !IsBlank(old(state).currentInput)
      ensures !accepted ==> state == old(state) && !replied
      ensures accepted ==> whileTyping == old(state).(
        messages := old(state).messages + [ChatMessage(MessageId("user", userTime), Trim(old(state).currentInput), true, userTime)],
        currentInput := "",
        isTyping := true)
      ensures accepted ==> (replied <==> ReplyPool(chatbotData, Lower(Trim(old(state).currentInput)), roll) != [])
      ensures accepted && !replied ==> state == whileTyping
      ensures replied ==>
        |state.messages| == |whileTyping.messages| + 1
        && state.messages[..|whileTyping.messages|] == whileTyping.messages
        && state.messages[|whileTyping.messages|] == ChatMessage(MessageId("bot", botTime), state.messages[|whileTyping.messages|].content, false, botTime)
        && state.messages[|whileTyping.messages|].content in ReplyPool(chatbotData, Lower(Trim(old(state).currentInput)), roll)
        && state == whileTyping.(messages := state.messages, isTyping := false)
    {
      var input := Trim(state.currentInput);
      if input == [] {
        accepted, replied, whileTyping := false, false, state;
        return;
      }
      accepted := true;
      var userMessage := ChatMessage(MessageId("user", userTime), input, true, userTime);
      state := state.(messages := state.messages + [userMessage], currentInput := "", isTyping := true);
      whileTyping := state;
      var response := GenerateResponse(chatbotData, Lower(input), roll);
      if response.None? {
        replied := false;
        return;
      }
      replied := true;
      var botMessage := ChatMessage(MessageId("bot", botTime), response.value, false, botTime);
      state := state.(messages := state.messages + [botMessage], isTyping := false);
    }

    /** `clearChat`: the conversation becomes a single greeting; the input and the typing
        indicator are left alone. `cleared` is false where drawing the greeting threw. */
    method ClearChat(now: nat) returns (cleared: bool)
      modifies this
      ensures chatbotData == old(chatbotData)
      ensures cleared <==> GreetingPool(chatbotData) != []
      ensures !cleared ==> state == old(state)
      ensures cleared ==>
        |state.messages| == 1 && IsGreetingAt(state.messages[0], now)
        && state.messages[0].content in GreetingPool(chatbotData)
        && state == old(state).(messages := state.messages)
    {
      var greeting := RandomElement(GreetingPool(chatbotData));
      if greeting.None? {
        cleared := false;
        return;
      }
      cleared := true;
      state := state.(messages := [ChatMessage(MessageId("greeting", now), greeting.value, false, now)]);
    }
  }

  /** A message that is sent and answered adds exactly two messages to the
      conversation, the user's then the assistant's, and leaves the input empty. */
  method SendAndReply(vm: ChatbotViewModel, roll: real, userTime: nat, botTime: nat) returns (replied: bool)
    modifies vm
    ensures replied ==>
      |vm.state.messages| == |old(vm.state.messages)| + 2
      && vm.state.messages[..|old(vm.state.messages)|] == old(vm.state.messages)
      && vm.state.messages[|old(vm.state.messages)|].isFromUser
      && vm.state.messages[|old(vm.state.messages)|].content == Trim(old(vm.state.currentInput))
      && !vm.state.messages[|old(vm.state.messages)| + 1].isFromUser
      && vm.state.currentInput == "" && !vm.state.isTyping
    ensures IsBlank(old(vm.state.currentInput)) ==> !replied && vm.state == old(vm.state)
  {
    var accepted, r, whileTyping := vm.SendMessage(roll, userTime, botTime);
    replied := r;
    if replied {
      assert vm.state.messages[..|old(vm.state.messages)|] == whileTyping.messages[..|old(vm.state.messages)|];
    }
  }
}
