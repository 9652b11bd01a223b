/**
  The message providers of src/providers.py: the two trivial providers and
  `ChatGPTProvider`, which keeps an ordered persona list, a current persona
  index that wraps around, and a rolling history of the last five generated
  lines. The remote completion call is a parameter: the text it returned, or
  `None` when it raised.
 */
module Providers {
  import opened Text
  import opened Emoji

  // ---------------------------------------------------------------------------
  // FixedMessageProvider and RandomMessageProvider
  // ---------------------------------------------------------------------------

  datatype SimpleProvider = Fixed(message: string) | RandomChoice(messages: seq<string>)

  /**
    `get_message` of the two simple providers. `pick` stands for the choice that
    `random.choice` makes.
   */
  function SimpleMessage(p: SimpleProvider, pick: nat): (r: string)
    ensures p.Fixed? ==> r == p.message
    ensures p.RandomChoice? && p.messages == [] ==> r == ""
    ensures p.RandomChoice? && p.messages != [] ==> r in p.messages
  {
    match p
    case Fixed(m) => m
    case RandomChoice(ms) => if ms == [] then "" else ms[pick % |ms|]
  }

  // ---------------------------------------------------------------------------
  // Personas and the initial persona
  // ---------------------------------------------------------------------------

  datatype Persona = Persona(name: string, prompt: string)

  const DefaultPersona := Persona("Default", "Style: Helpful teammate.")
  const PreferredName := "Reputation Farmer"
  const HistoryCap := 5
  const ErrorMessage := "Error generating message."

  /**
    `_load_prompts` followed by the fallback in `__init__`: a failed load
    (`None`) or an empty file yields the single default persona.
   */
  function InitialPersonas(loaded: Option<seq<Persona>>): (r: seq<Persona>)
    ensures |r| >= 1
    ensures loaded.Some? && loaded.value != [] ==> r == loaded.value
    ensures loaded.None? || loaded.value == [] ==> r == [DefaultPersona]
  {
    var ps := if loaded.Some? then loaded.value else [];
    if ps == [] then [DefaultPersona] else ps
  }

  /** The index of the first persona named `name`, if any. */
  function FirstNamed(ps: seq<Persona>, name: string): (r: Option<nat>)
    ensures r.Some? ==> r.value < |ps| && ps[r.value].name == name
    ensures r.Some? ==> forall j :: 0 <= j < r.value ==> ps[j].name != name
    ensures r.None? ==> forall j :: 0 <= j < |ps| ==> ps[j].name != name
  {
    if ps == [] then None
    else if ps[0].name == name then Some(0)
    else match FirstNamed(ps[1..], name)
      case None => None
      case Some(i) => Some(i + 1)
  }

  /** The search loop of `__init__`: the first "Reputation Farmer", or index 0. */
  method InitialIndex(ps: seq<Persona>) returns (index: nat)
    requires |ps| >= 1
    ensures index < |ps|
    ensures FirstNamed(ps, PreferredName).Some? ==> index == FirstNamed(ps, PreferredName).value
    ensures FirstNamed(ps, PreferredName).None? ==> index == 0
  {
    index := 0;
    var i := 0;
    while i < |ps|
      invariant 0 <= i <= |ps|
      invariant forall j :: 0 <= j < i ==> ps[j].name != PreferredName
    {
      if ps[i].name == PreferredName {
        index := i;
        return;
      }
      i := i + 1;
    }
  }

  // ---------------------------------------------------------------------------
  // Persona switching
  // ---------------------------------------------------------------------------

  /** `(current_index + 1) % len(prompts)` */
  function NextIndex(i: nat, n: nat): (r: nat)
    requires i < n
    ensures r < n
    ensures r == if i == n - 1 then 0 else i + 1
  {
    (i + 1) % n
  }

  /**
    `(current_index - 1) % len(prompts)` with Python's modulo, which for a
    positive divisor agrees with Dafny's: the result is never negative.
   */
  function PrevIndex(i: nat, n: nat): (r: nat)
    requires i < n
    ensures r < n
    ensures r == if i == 0 then n - 1 else i - 1
  {
    var m := (i - 1) % n;
    assert i == 0 ==> (-1) % n == n - 1;
    m
  }

  /** Stepping forward and then back, or back and then forward, restores the index. */
  lemma NextPrevInverse(i: nat, n: nat)
    requires i < n
    ensures PrevIndex(NextIndex(i, n), n) == i
    ensures NextIndex(PrevIndex(i, n), n) == i
  {
  }

  // ---------------------------------------------------------------------------
  // Prompt construction and sanitising
  // ---------------------------------------------------------------------------

  datatype Role = System | Assistant | User
  datatype ChatMessage = ChatMessage(role: Role, content: string)

  function SystemPrompt(base: string, style: string): string {
    base + "\n\nPersona/Style: " + style
  }

  function UserPrompt(context: string): string {
    "Current Match Situation: " + context + "\nWrite a chat message reacting to this situation."
  }

  /** The request: one system turn, the history replayed oldest first, one user turn. */
  predicate IsRequest(msgs: seq<ChatMessage>, system: string, history: seq<string>, user: string) {
    && |msgs| == |history| + 2
    && msgs[0] == ChatMessage(System, system)
    && (forall k :: 0 <= k < |history| ==> msgs[k + 1] == ChatMessage(Assistant, history[k]))
    && msgs[|msgs| - 1] == ChatMessage(User, user)
  }

  /** The message-list loop of `get_message`. */
  method BuildMessages(system: string, history: seq<string>, user: string) returns (msgs: seq<ChatMessage>)
    ensures IsRequest(msgs, system, history, user)
  {
    msgs := [ChatMessage(System, system)];
    var i := 0;
    while i < |history|
      invariant 0 <= i <= |history|
      invariant |msgs| == i + 1 && msgs[0] == ChatMessage(System, system)
      invariant forall k :: 0 <= k < i ==> msgs[k + 1] == ChatMessage(Assistant, history[k])
    {
      msgs := msgs + [ChatMessage(Assistant, history[i])];
      i := i + 1;
    }
    msgs := msgs + [ChatMessage(User, user)];
  }

  /** `content.replace('"', '').replace("'", "")` */
  function RemoveQuotes(s: string): (r: string)
    ensures |r| <= |s|
  {
    if s == [] then []
    else if s[0] == '"' || s[0] == '\'' then RemoveQuotes(s[1..])
    else [s[0]] + RemoveQuotes(s[1..])
  }

  /** Every quote character goes, every other character stays. */
  lemma {:induction false} RemoveQuotesMembers(s: string, c: char)
    ensures c in RemoveQuotes(s) <==> c in s && c != '"' && c != '\''
  {
    if s != [] {
      RemoveQuotesMembers(s[1..], c);
      assert c in s <==> c == s[0] || c in s[1..];
    }
  }

  lemma {:induction false} RemoveQuotesUnchanged(s: string)
    requires '"' !in s && '\'' !in s
    ensures RemoveQuotes(s) == s
  {
    if s != [] {
      RemoveQuotesUnchanged(s[1..]);
    }
  }

  /** `if '#' in content: content = content.split('#')[0].strip()` */
  function CutHashtag(s: string): (r: string)
    ensures '#' !in r
    ensures '#' !in s ==> r == s
  {
    if '#' in s then
      var head := SplitHead(s, "#");
      ContainsChar(head, '#');
      var r := Strip(head);
      if '#' in r then StripOnlyDrops(head, '#'); r else r
    else s
  }

  /** Cutting at the hashtag adds no character. */
  lemma CutHashtagOnlyDrops(s: string, c: char)
    requires c in CutHashtag(s)
    ensures c in s
  {
    if '#' in s {
      var head := SplitHead(s, "#");
      StripOnlyDrops(head, c);
      assert c in s[..|head|];
    }
  }

  /** The clean-up of a successful completion, in the source's order. */
  function Sanitize(raw: string): string {
    RemoveEmojis(CutHashtag(RemoveQuotes(Strip(raw))))
  }

  /** What the clean-up guarantees of every result. */
  lemma SanitizeClean(raw: string)
    ensures var r := Sanitize(raw);
      && '"' !in r && '\'' !in r && '#' !in r
      && (forall c :: c in r ==> !InEmojiRange(c))
      && (r == [] || (!IsSpace(r[0]) && !IsSpace(r[|r| - 1])))
      && |r| <= |raw|
  {
    var q := RemoveQuotes(Strip(raw));
    var h := CutHashtag(q);
    forall c | c in Sanitize(raw) ensures c in h && !InEmojiRange(c) {
      StripOnlyDrops(DropEmojis(h), c);
      DropEmojisMembers(h, c);
    }
    forall c | c in h ensures c != '"' && c != '\'' {
      CutHashtagOnlyDrops(q, c);
      RemoveQuotesMembers(Strip(raw), c);
    }
  }

  /** Cleaning an already clean line changes nothing. */
  lemma SanitizeIdempotent(raw: string)
    ensures Sanitize(Sanitize(raw)) == Sanitize(raw)
  {
    var r := Sanitize(raw);
    SanitizeClean(raw);
    StripUnchanged(r);
    RemoveQuotesUnchanged(r);
    RemoveEmojisUnchanged(r);
  }

  /** The hashtag and everything after it go, and so does the space before it. */
  lemma CutHashtagExample()
    ensures CutHashtag("gg #ez") == "gg"
  {
    var s := "gg #ez";
    assert Contains(s, "#") by { assert OccursAt(s, "#", 3); }
    var h := SplitHead(s, "#");
    assert s[|h|] == '#' by { assert OccursAt(s, "#", |h|); }
    assert h == "gg ";
    StripUnchanged("gg");
    assert Strip(h) == "gg";
  }

  /** Quotes are removed everywhere, not only at the ends. */
  lemma RemoveQuotesExample()
    ensures RemoveQuotes("'g'g #ez") == "gg #ez"
  {
  }

  lemma SanitizeExample()
    ensures Sanitize("'g'g #ez") == "gg"
  {
    var raw := "'g'g #ez";
    StripUnchanged(raw);
    RemoveQuotesExample();
    CutHashtagExample();
    RemoveEmojisUnchanged("gg");
    calc {
      Sanitize(raw);
      RemoveEmojis(CutHashtag(RemoveQuotes(raw)));
      RemoveEmojis(CutHashtag("gg #ez"));
      RemoveEmojis("gg");
    }
  }

  // ---------------------------------------------------------------------------
  // ChatGPTProvider
  // ---------------------------------------------------------------------------

  class ChatGptProvider {
    /** BASE_SYSTEM_PROMPT of src/constants.py, which every system turn starts with. */
    const basePrompt: string
    var prompts: seq<Persona>
    var currentIndex: nat
    var history: seq<string>

    ghost predicate Valid()
      reads this
    {
      |prompts| >= 1 && currentIndex < |prompts| && |history| <= HistoryCap
    }

    /**
      `__init__`, given what `_load_prompts` produced (`None` when it raised)
      and the shared base system prompt.
     */
    constructor (loaded: Option<seq<Persona>>, base: string)
      ensures Valid()
      ensures basePrompt == base
      ensures prompts == InitialPersonas(loaded)
      ensures FirstNamed(prompts, PreferredName).Some? ==> currentIndex == FirstNamed(prompts, PreferredName).value
      ensures FirstNamed(prompts, PreferredName).None? ==> currentIndex == 0
      ensures history == []
    {
      var ps := InitialPersonas(loaded);
      var i := 0;
      if loaded.Some? && loaded.value != [] {
        i := InitialIndex(ps);
      }
      basePrompt := base;
      prompts := ps;
      currentIndex := i;
      history := [];
    }

    /** `get_current_mode_name` */
    function CurrentModeName(): (r: string)
      reads this
      requires Valid()
      ensures exists i :: 0 <= i < |prompts| && prompts[i].name == r
    {
      prompts[currentIndex].name
    }

    method NextMode()
      requires Valid()
      modifies this
      ensures Valid()
      ensures prompts == old(prompts)
      ensures currentIndex == NextIndex(old(currentIndex), |prompts|)
      ensures history == []
    {
      currentIndex := (currentIndex + 1) % |prompts|;
      history := [];
    }

    method PrevMode()
      requires Valid()
      modifies this
      ensures Valid()
      ensures prompts == old(prompts)
      ensures currentIndex == PrevIndex(old(currentIndex), |prompts|)
      ensures history == []
    {
      currentIndex := (currentIndex - 1) % |prompts|;
      history := [];
    }

    /** The message list `get_message` sends for the scenario `context`. */
    method BuildRequest(context: string) returns (request: seq<ChatMessage>)
      requires Valid()
      ensures IsRequest(request, SystemPrompt(basePrompt, prompts[currentIndex].prompt), history, UserPrompt(context))
    {
      var persona := prompts[currentIndex];
      request := BuildMessages(SystemPrompt(basePrompt, persona.prompt), history, UserPrompt(context));
    }

    /**
      `get_message`: `context` is the scenario `get_random_context` drew and
      `reply` what the completion call returned (`None` when it raised).
      `request` is the message list handed to that call.
     */
    method GetMessage(context: string, reply: Option<string>) returns (content: string, request: seq<ChatMessage>)
      requires Valid()
      modifies this`history
      ensures Valid()
      ensures prompts == old(prompts) && currentIndex == old(currentIndex)
      ensures IsRequest(request, SystemPrompt(basePrompt, prompts[currentIndex].prompt), old(history), UserPrompt(context))
      ensures reply.Some? ==> content == Sanitize(reply.value)
      ensures reply.Some? ==> history == BoundedAppend(old(history), content, HistoryCap)
      ensures reply.None? ==> content == ErrorMessage && history == old(history)
    {
      request := BuildRequest(context);
      match reply
      case Some(raw) =>
        content := Sanitize(raw);
        history := BoundedAppend(history, content, HistoryCap);
      case None =>
        content := ErrorMessage;
    }
  }

  /** A fresh provider over a loaded list that names the preferred persona starts on it. */
  lemma StartsOnPreferred(ps: seq<Persona>, k: nat)
    requires k < |ps| && ps[k].name == PreferredName
    ensures FirstNamed(InitialPersonas(Some(ps)), PreferredName).Some?
    ensures InitialPersonas(Some(ps))[FirstNamed(InitialPersonas(Some(ps)), PreferredName).value].name == PreferredName
  {
  }
}
