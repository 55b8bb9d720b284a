/** The chat assistant: an ordered keyword table of six events, a responder
    that tries the table first and then five general rules in a fixed order,
    and the message list that sending appends to. */
module Chat {
  import opened Common
  import opened Text

  /** One row of the assistant's own event table (independent of the shared
      catalog). */
  datatype ChatEntry = ChatEntry(
    keywords: seq<string>,
    title: string,
    date: string,
    time: string,
    location: string,
    price: string,
    description: string)

  const AiWorkshop := ChatEntry(["ai", "machine learning", "ml", "artificial intelligence", "workshop"],
    "AI & Machine Learning Workshop", "November 15, 2024", "10:00 AM - 4:00 PM",
    "Tech Lab, Building A", "\U{20B9}500",
    "Learn the fundamentals of AI and ML with hands-on projects and expert guidance.")

  const CulturalFestival := ChatEntry(["cultural", "festival", "music", "dance", "performance"],
    "Annual Cultural Festival", "November 20, 2024", "6:00 PM - 11:00 PM",
    "Main Auditorium", "Free",
    "Celebrate diversity with music, dance, and cultural performances from around the world.")

  const StartupPitch := ChatEntry(["startup", "pitch", "competition", "business", "entrepreneur"],
    "Startup Pitch Competition", "November 25, 2024", "2:00 PM - 6:00 PM",
    "Innovation Hub", "\U{20B9}200",
    "Present your innovative ideas to industry experts and win exciting prizes.")

  const RoboticsChallenge := ChatEntry(["robotics", "robot", "challenge", "programming", "engineering"],
    "Robotics Challenge", "December 1, 2024", "9:00 AM - 5:00 PM",
    "Engineering Lab", "\U{20B9}800",
    "Build and program robots to compete in exciting challenges and obstacles.")

  const PhotographyWorkshop := ChatEntry(["photography", "photo", "camera", "art", "creative"],
    "Photography Workshop", "December 5, 2024", "11:00 AM - 3:00 PM",
    "Art Studio", "\U{20B9}300",
    "Master the art of photography with professional techniques and equipment.")

  const CareerFair := ChatEntry(["career", "job", "internship", "fair", "company"],
    "Career Fair 2024", "December 10, 2024", "10:00 AM - 4:00 PM",
    "Campus Grounds", "Free",
    "Connect with top companies and explore internship and job opportunities.")

  /** The assistant's table, in the order it is searched. */
  const Table: seq<ChatEntry> :=
    [AiWorkshop, CulturalFestival, StartupPitch, RoboticsChallenge, PhotographyWorkshop, CareerFair]

  /** Some word of `words` occurs in `text`: `words.some(w => text.includes(w))`
      (the source spells the short lists out with `||`). */
  predicate Mentions(text: string, words: seq<string>)
  {
    Any(words, (w: string) => Contains(text, w))
  }

  lemma MentionsIff(text: string, words: seq<string>)
    ensures Mentions(text, words) <==> exists i :: 0 <= i < |words| && Contains(text, words[i])
  {
    AnyIff(words, (w: string) => Contains(text, w));
  }

  /** A table row answers a lower-cased query when one of its keywords
      occurs in it. */
  predicate EntryMatches(e: ChatEntry, lowerQuery: string)
  {
    Mentions(lowerQuery, e.keywords)
  }

  /** `findEventByKeywords` over the table `table`: the first row, in
      table order, one of whose keywords occurs in the lower-cased query. */
  function FindEventByKeywords(table: seq<ChatEntry>, query: string): (r: Option<ChatEntry>)
    ensures r.None? <==> forall i :: 0 <= i < |table| ==> !EntryMatches(table[i], Lower(query))
    ensures r.Some? ==> exists i :: 0 <= i < |table| && table[i] == r.value
                                    && EntryMatches(table[i], Lower(query))
                                    && forall j :: 0 <= j < i ==> !EntryMatches(table[j], Lower(query))
  {
    var lowerQuery := Lower(query);
    var k := FindFirst(table, (e: ChatEntry) => EntryMatches(e, lowerQuery));
    if k.None? then None else Some(table[k.value])
  }

  const GreetingWords: seq<string> := ["hello", "hi", "hey"]
  const HelpWords: seq<string> := ["help"]
  const EventsWords: seq<string> := ["events", "what"]
  const RegisterWords: seq<string> := ["register", "registration"]
  const PriceWords: seq<string> := ["price", "cost", "fee"]

  /** Which answer `generateBotResponse` gives. */
  datatype Reply = Introduction | EventDetails(entry: ChatEntry) | Greeting | HelpText | EventsOverview | HowToRegister | Prices | Fallback

  /** `generateBotResponse`: a matching table row wins over every general
      rule; otherwise the first general rule, in the order greeting, help,
      events, registration, prices, whose words the lower-cased message
      mentions; otherwise the fallback. */
  function GenerateBotResponse(table: seq<ChatEntry>, message: string): (r: Reply)
    ensures r != Introduction
    ensures r.EventDetails? <==> FindEventByKeywords(table, message).Some?
    ensures r.EventDetails? ==> r.entry == FindEventByKeywords(table, message).value
    ensures r == Greeting <==>
      FindEventByKeywords(table, message).None? && Mentions(Lower(message), GreetingWords)
    ensures r == HelpText <==>
      FindEventByKeywords(table, message).None? && !Mentions(Lower(message), GreetingWords)
      && Mentions(Lower(message), HelpWords)
    ensures r == EventsOverview <==>
      FindEventByKeywords(table, message).None? && !Mentions(Lower(message), GreetingWords)
      && !Mentions(Lower(message), HelpWords) && Mentions(Lower(message), EventsWords)
    ensures r == HowToRegister <==>
      FindEventByKeywords(table, message).None? && !Mentions(Lower(message), GreetingWords)
      && !Mentions(Lower(message), HelpWords) && !Mentions(Lower(message), EventsWords)
      && Mentions(Lower(message), RegisterWords)
    ensures r == Prices <==>
      FindEventByKeywords(table, message).None? && !Mentions(Lower(message), GreetingWords)
      && !Mentions(Lower(message), HelpWords) && !Mentions(Lower(message), EventsWords)
      && !Mentions(Lower(message), RegisterWords) && Mentions(Lower(message), PriceWords)
    ensures r == Fallback <==>
      FindEventByKeywords(table, message).None? && !Mentions(Lower(message), GreetingWords)
      && !Mentions(Lower(message), HelpWords) && !Mentions(Lower(message), EventsWords)
      && !Mentions(Lower(message), RegisterWords) && !Mentions(Lower(message), PriceWords)
  {
    var lowerMessage := Lower(message);
    var matched := FindEventByKeywords(table, message);
    if matched.Some? then EventDetails(matched.value)
    else if Mentions(lowerMessage, GreetingWords) then Greeting
    else if Mentions(lowerMessage, HelpWords) then HelpText
    else if Mentions(lowerMessage, EventsWords) then EventsOverview
    else if Mentions(lowerMessage, RegisterWords) then HowToRegister
    else if Mentions(lowerMessage, PriceWords) then Prices
    else Fallback
  }

  /** The answer depends only on the lower-cased message: a message and its
      lower-case form get the same answer. */
  lemma ResponseCaseInsensitive(table: seq<ChatEntry>, message: string)
    ensures GenerateBotResponse(table, Lower(message)) == GenerateBotResponse(table, message)
  {
    LowerIdempotent(message);
  }

  /** A keyword of the first row found in the message decides the answer,
      whatever later rows also match. */
  lemma FirstRowAnswers(table: seq<ChatEntry>, message: string, k: nat)
    requires table != [] && k < |table[0].keywords|
    requires Contains(Lower(message), table[0].keywords[k])
    ensures GenerateBotResponse(table, message) == EventDetails(table[0])
  {
    MentionsIff(Lower(message), table[0].keywords);
  }

  /** "career fair" mentions two keywords of the career fair row, but it
      also contains "ai", so the first row, the AI workshop, answers it. */
  lemma CareerFairAnsweredByAiWorkshop()
    ensures EntryMatches(CareerFair, "career fair")
    ensures GenerateBotResponse(Table, "career fair") == EventDetails(AiWorkshop)
  {
    CareerFairQuery();
    MentionsIff("career fair", CareerFair.keywords);
    assert CareerFair.keywords[0] == "career";
    FirstRowAnswers(Table, "career fair", 0);
  }

  lemma CareerFairQuery()
    ensures Lower("career fair") == "career fair"
    ensures Contains("career fair", "career") && Contains("career fair", "ai")
  {
    LowerNoUpper("career fair");
    CareerFairContainsCareer();
    CareerFairContainsAi();
  }

  lemma CareerFairContainsCareer()
    ensures Contains("career fair", "career")
  {
    var q := "career fair";
    assert q[..6] == "career";
    ContainsAt(q, "career", 0);
  }

  lemma CareerFairContainsAi()
    ensures Contains("career fair", "ai")
  {
    var q := "career fair";
    assert q[8] == 'a' && q[9] == 'i';
    assert q[8..10] == "ai";
    ContainsAt(q, "ai", 8);
  }

  /** "photography workshop" mentions the photography row's keyword, but
      "workshop" is a keyword of the first row, which answers it. */
  lemma PhotographyWorkshopAnsweredByAiWorkshop()
    ensures EntryMatches(PhotographyWorkshop, "photography workshop")
    ensures GenerateBotResponse(Table, "photography workshop") == EventDetails(AiWorkshop)
  {
    PhotographyWorkshopQuery();
    MentionsIff("photography workshop", PhotographyWorkshop.keywords);
    assert PhotographyWorkshop.keywords[0] == "photography";
    FirstRowAnswers(Table, "photography workshop", 4);
  }

  lemma PhotographyWorkshopQuery()
    ensures Lower("photography workshop") == "photography workshop"
    ensures Contains("photography workshop", "photography")
    ensures Contains("photography workshop", "workshop")
  {
    LowerNoUpper("photography workshop");
    PhotographyWorkshopContainsPhotography();
    PhotographyWorkshopContainsWorkshop();
  }

  lemma PhotographyWorkshopContainsPhotography()
    ensures Contains("photography workshop", "photography")
  {
    var q := "photography workshop";
    assert q[..11] == "photography";
    ContainsAt(q, "photography", 0);
  }

  lemma PhotographyWorkshopContainsWorkshop()
    ensures Contains("photography workshop", "workshop")
  {
    var q := "photography workshop";
    assert q[12..20] == "workshop";
    ContainsAt(q, "workshop", 12);
  }

  // -----------------------------------------------------------------------
  // The reply texts

  const GreetingReply := "Hello! \U{1F44B} Welcome to CEC Events! I can help you find information about our upcoming events. What are you interested in?"

  const HelpReply := "I can help you with information about our events! Try asking me about:\n\n\U{2022} AI workshop\n\U{2022} Cultural festival\n\U{2022} Robotics challenge\n\U{2022} Startup competition\n\U{2022} Photography workshop\n\U{2022} Career fair\n\nJust mention any of these topics and I'll give you all the details!"

  const EventsReply := "We have amazing events coming up! Here are some highlights:\n\n\U{1F916} AI & Machine Learning Workshop\n\U{1F3AD} Annual Cultural Festival\n\U{1F680} Startup Pitch Competition\n\U{1F916} Robotics Challenge\n\U{1F4F8} Photography Workshop\n\U{1F4BC} Career Fair 2024\n\nAsk me about any specific event for detailed information!"

  const RegisterReply := "To register for any event:\n\n1. Scroll to the Events section\n2. Find the event you're interested in\n3. Click the 'Register Now' button\n4. Fill out the registration form\n\nYou'll need to be logged in to register. If you don't have an account, click 'Sign Up' in the header!"

  const PricesReply := "Our event prices vary:\n\n\U{1F4B0} **Paid Events:**\n\U{2022} AI Workshop: \U{20B9}500\n\U{2022} Robotics Challenge: \U{20B9}800\n\U{2022} Photography Workshop: \U{20B9}300\n\U{2022} Startup Competition: \U{20B9}200\n\n\U{1F193} **Free Events:**\n\U{2022} Cultural Festival\n\U{2022} Career Fair\n\nAsk about a specific event for exact pricing!"

  const FallbackReply := "I'm not sure about that specific question, but I'm here to help with event information! \U{1F914}\n\nTry asking me about:\n\U{2022} Specific events (AI, cultural, robotics, etc.)\n\U{2022} Event dates and times\n\U{2022} Registration process\n\U{2022} Event prices\n\nWhat would you like to know about our events?"

  const DetailsHead := "\U{1F389} **"

  /** The event card the assistant writes: title, date, time, location,
      price and description, then an invitation to register. */
  function DetailsText(e: ChatEntry): string
  {
    DetailsHead + e.title + "**\n\n\U{1F4C5} **Date:** " + e.date
    + "\n\U{23F0} **Time:** " + e.time
    + "\n\U{1F4CD} **Location:** " + e.location
    + "\n\U{1F4B0} **Price:** " + e.price
    + "\n\n\U{1F4DD} **About:** " + e.description
    + "\n\nWould you like to register for this event? Click \"Register Now\" on the event card in the Events section!"
  }

  /** The text shown for an answer. */
  function ReplyText(r: Reply): string
  {
    match r
    case Introduction => WelcomeText
    case EventDetails(e) => DetailsText(e)
    case Greeting => GreetingReply
    case HelpText => HelpReply
    case EventsOverview => EventsReply
    case HowToRegister => RegisterReply
    case Prices => PricesReply
    case Fallback => FallbackReply
  }

  /** The event card names the event: its title follows the opening emoji
      and bold marker. */
  lemma DetailsNameTheEvent(e: ChatEntry)
    ensures OccursAt(DetailsText(e), e.title, |DetailsHead|)
    ensures Contains(DetailsText(e), e.title)
  {
    var t := DetailsText(e);
    var rest := t[|DetailsHead + e.title|..];
    assert t == DetailsHead + e.title + rest;
    assert t[|DetailsHead|..|DetailsHead| + |e.title|] == e.title;
    ContainsAt(t, e.title, |DetailsHead|);
  }

  // -----------------------------------------------------------------------
  // The component

  /** A chat message: the user's text, or the answer the assistant gave,
      whose text is `ReplyText(reply)`. */
  datatype Message = UserMessage(id: int, text: string) | BotMessage(id: int, reply: Reply)

  const WelcomeText := "Hi! I'm your CEC Events assistant. I can help you find information about our events. Try asking me about 'AI workshop', 'cultural fest', 'robotics challenge', or 'startup competition'!"

  /** The conversation opens with the assistant's introduction, id 1. */
  const Welcome := BotMessage(1, Introduction)

  class Chatbot {
    /** The component's own keyword table. */
    const table: seq<ChatEntry>
    var isOpen: bool
    var messages: seq<Message>
    var inputValue: string
    /** Inputs whose answer is scheduled and not yet shown, oldest first;
        each is the input as it was when it was sent. */
    var pendingReplies: seq<string>

    constructor ()
      ensures table == Table
      ensures !isOpen && messages == [Welcome] && inputValue == "" && pendingReplies == []
    {
      table := Table;
      isOpen := false;
      messages := [Welcome];
      inputValue := "";
      pendingReplies := [];
    }

    /** The chat toggle button. */
    method Toggle()
      modifies this
      ensures isOpen == !old(isOpen)
      ensures messages == old(messages) && inputValue == old(inputValue)
      ensures pendingReplies == old(pendingReplies)
    {
      isOpen := !isOpen;
    }

    /** The input's `onChange`. */
    method SetInput(value: string)
      modifies this
      ensures inputValue == value
      ensures messages == old(messages) && isOpen == old(isOpen)
      ensures pendingReplies == old(pendingReplies)
    {
      inputValue := value;
    }

    /** The send button is enabled exactly when the input has a character
        that is not white space. */
    predicate SendEnabled()
      reads this
      ensures SendEnabled() <==> !AllSpace(inputValue)
    {
      TrimEmptyIff(inputValue); Trim(inputValue) != []
    }

    /** `handleSendMessage` at time `now`: blank input is ignored; otherwise
        the input becomes one user message, its answer is scheduled, and the
        input is cleared. */
    method SendMessage(now: int) returns (sent: bool)
      modifies this
      ensures sent <==> !AllSpace(old(inputValue))
      ensures sent <==> old(SendEnabled())
      ensures sent ==> messages == old(messages) + [UserMessage(now, old(inputValue))]
                       && pendingReplies == old(pendingReplies) + [old(inputValue)]
                       && inputValue == ""
      ensures !sent ==> messages == old(messages) && pendingReplies == old(pendingReplies)
                        && inputValue == old(inputValue)
      ensures isOpen == old(isOpen)
    {
      TrimEmptyIff(inputValue);
      if Trim(inputValue) == [] {
        return false;
      }
      messages := messages + [UserMessage(now, inputValue)];
      pendingReplies := pendingReplies + [inputValue];
      inputValue := "";
      sent := true;
    }

    /** `handleKeyPress`: Enter sends, any other key does nothing. */
    method KeyPress(key: string, now: int) returns (sent: bool)
      modifies this
      ensures sent <==> key == "Enter" && !AllSpace(old(inputValue))
      ensures sent ==> messages == old(messages) + [UserMessage(now, old(inputValue))]
                       && pendingReplies == old(pendingReplies) + [old(inputValue)]
                       && inputValue == ""
      ensures !sent ==> messages == old(messages) && pendingReplies == old(pendingReplies)
                        && inputValue == old(inputValue)
      ensures isOpen == old(isOpen)
    {
      sent := false;
      if key == "Enter" {
        sent := SendMessage(now);
      }
    }

    /** The one-second timer of the oldest scheduled answer fires at time
        `now`: the answer to the input it captured becomes a bot message with
        id `now + 1`. */
    method DeliverReply(now: int)
      requires pendingReplies != []
      modifies this
      ensures messages == old(messages) + [BotMessage(now + 1, GenerateBotResponse(table, old(pendingReplies)[0]))]
      ensures pendingReplies == old(pendingReplies)[1..]
      ensures inputValue == old(inputValue) && isOpen == old(isOpen)
    {
      messages := messages + [BotMessage(now + 1, GenerateBotResponse(table, pendingReplies[0]))];
      pendingReplies := pendingReplies[1..];
    }
  }
}
