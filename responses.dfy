/** The canned reply generator (generateAIResponse): the user's text is
    lower-cased, put in the first topic category whose keywords it
    contains, and answered with one entry of that category's fixed table,
    chosen by a random number. */
module Responses {
  import opened Text

  datatype Category = Greeting | Technology | Science | Help | Default

  /** Position of a category in the order the keyword tests run. */
  function Rank(c: Category): (k: nat)
    ensures k < 5
  {
    match c
    case Greeting => 0
    case Technology => 1
    case Science => 2
    case Help => 3
    case Default => 4
  }

  /** The substring test of one category on an already lower-cased message;
      the default category is the one every message falls back to. */
  predicate Matches(message: string, c: Category) {
    match c
    case Greeting =>
      Contains(message, "hello") || Contains(message, "hi") || Contains(message, "hey")
    case Technology =>
      Contains(message, "tech") || Contains(message, "computer")
      || Contains(message, "ai") || Contains(message, "software")
    case Science =>
      Contains(message, "science") || Contains(message, "physics")
      || Contains(message, "biology") || Contains(message, "chemistry")
    case Help =>
      Contains(message, "help") || Contains(message, "what can you do")
      || Contains(message, "capabilities")
    case Default => true
  }

  /** The category of a message: the first one in test order whose test the
      lower-cased message passes, so none of the earlier ones passes. */
  function Classify(userMessage: string): (c: Category)
    ensures Matches(ToLower(userMessage), c)
    ensures forall d :: Rank(d) < Rank(c) ==> !Matches(ToLower(userMessage), d)
  {
    var message := ToLower(userMessage);
    if Matches(message, Greeting) then Greeting
    else if Matches(message, Technology) then Technology
    else if Matches(message, Science) then Science
    else if Matches(message, Help) then Help
    else Default
  }

  /** The two properties in Classify's contract single out one category. */
  lemma ClassifyIsFirstMatch(userMessage: string, c: Category)
    requires Matches(ToLower(userMessage), c)
    requires forall d :: Rank(d) < Rank(c) ==> !Matches(ToLower(userMessage), d)
    ensures Classify(userMessage) == c
  {
    var r := Classify(userMessage);
    if Rank(r) < Rank(c) {
    } else if Rank(c) < Rank(r) {
    } else {
      assert r == c;
    }
  }

  /** The category depends on the lower-cased text only. */
  lemma ClassifyIgnoresCase(userMessage: string)
    ensures Classify(ToLower(userMessage)) == Classify(userMessage)
  {
    LowerIdempotent(userMessage);
  }

  /** A greeting word anywhere in the message, in any letter case, makes the
      reply a greeting whatever other keywords the message holds. */
  lemma GreetingWins(pre: string, word: string, post: string)
    requires ToLower(word) in {"hello", "hi", "hey"}
    ensures Classify(pre + word + post) == Greeting
  {
    LowerAppend(pre + word, post);
    LowerAppend(pre, word);
    ContainsInside(ToLower(pre), ToLower(word), ToLower(post));
  }

  /** Because the test is a substring test, "this" is a greeting. */
  lemma ThisIsAGreeting()
    ensures Classify("this") == Greeting
  {
    LowerOfLower("hi");
    GreetingWins("t", "hi", "s");
  }

  /** A message that contains none of the keywords gets a default reply. */
  lemma NoKeywordMeansDefault(userMessage: string)
    requires forall c :: c != Default ==> !Matches(ToLower(userMessage), c)
    ensures Classify(userMessage) == Default
  {
    ClassifyIsFirstMatch(userMessage, Default);
  }

  const GreetingReplies: seq<string> := [
    "Hello! I'm Neura, your AI assistant. How can I help you today?",
    "Hi there! I'm here to assist you with any questions you might have.",
    "Greetings! I'm ready to help you explore ideas and answer questions."
  ]

  const TechnologyReplies: seq<string> := [
    "Technology is evolving at an incredible pace. AI, quantum computing, and biotechnology are pushing the boundaries of what's possible.",
    "The current trends in technology include edge computing, AI democratization, and sustainable tech solutions.",
    "Technology should aim to solve human problems while being mindful of ethical considerations and accessibility."
  ]

  const ScienceReplies: seq<string> := [
    "Science helps us understand the universe from quantum particles to galactic superclusters.",
    "Recent scientific breakthroughs include CRISPR gene editing, gravitational wave detection, and advancements in fusion energy.",
    "The scientific method remains our most reliable tool for discovering truth about the natural world."
  ]

  const HelpReplies: seq<string> := [
    "I can help with explanations, brainstorming, answering questions, and discussing various topics.",
    "You can ask me about technology, science, general knowledge, or request help with problem-solving.",
    "Try asking specific questions or request explanations on topics you're curious about."
  ]

  const DefaultReplies: seq<string> := [
    "That's an interesting point. Could you tell me more about what you're thinking?",
    "I understand. Let me think about that for a moment...",
    "Thanks for sharing. From my perspective, this topic raises several interesting considerations.",
    "I'd be happy to explore that idea with you. What aspect are you most curious about?",
    "That's a thoughtful question. Let me provide some insights based on available information."
  ]

  /** The fixed reply table of each category: three replies per topic,
      five for the fallback. */
  function Replies(c: Category): (rs: seq<string>)
    ensures |rs| == if c == Default then 5 else 3
  {
    match c
    case Greeting => GreetingReplies
    case Technology => TechnologyReplies
    case Science => ScienceReplies
    case Help => HelpReplies
    case Default => DefaultReplies
  }

  /** Math.floor(u * n) for a random number u in [0, 1): always a valid
      index into a list of n entries. */
  function RandomIndex(u: real, n: nat): (k: nat)
    requires 0.0 <= u < 1.0 && n > 0
    ensures k < n
  {
    assert 0.0 <= u * n as real < n as real;
    (u * n as real).Floor
  }

  /** Every index can be drawn: u = k / n picks entry k. */
  lemma RandomIndexReaches(k: nat, n: nat)
    requires k < n
    ensures 0.0 <= k as real / n as real < 1.0
    ensures RandomIndex(k as real / n as real, n) == k
  {
    assert k as real / n as real * n as real == k as real;
  }

  /** generateAIResponse with the random number u made a parameter. */
  function GenerateAIResponse(userMessage: string, u: real): (reply: string)
    requires 0.0 <= u < 1.0
    ensures reply in Replies(Classify(userMessage))
  {
    var candidates := Replies(Classify(userMessage));
    candidates[RandomIndex(u, |candidates|)]
  }

  /** Every entry of the message's category is a possible reply. */
  lemma EveryReplyPossible(userMessage: string, reply: string)
    requires reply in Replies(Classify(userMessage))
    ensures exists u :: 0.0 <= u < 1.0 && GenerateAIResponse(userMessage, u) == reply
  {
    var candidates := Replies(Classify(userMessage));
    var k :| 0 <= k < |candidates| && candidates[k] == reply;
    RandomIndexReaches(k, |candidates|);
    var u := k as real / |candidates| as real;
    assert GenerateAIResponse(userMessage, u) == reply;
  }
}
