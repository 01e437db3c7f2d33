/**
  The chat flow of the assistant: the session state (phase, candidate
  profile, transcript, questions), the handling of one user message, and
  what that handling guarantees.

  `Step` is the specification of one script run: the greeting check
  followed by the input handler. `Session.Run` is the same run written as
  the source writes it, assignment by assignment, and is proved equal to
  `Step`. The language model's reply is a parameter: `None` when no model
  is configured or the call fails, otherwise the text it returned.
*/
module App {
  import opened Wrappers
  import opened PyStr
  import opened Candidate
  import opened Utils

  /** `st.session_state.state`: greeting -> collecting -> questioning -> ended. */
  datatype Phase = Greeting | Collecting | Questioning | Ended

  datatype Role = User | Assistant

  /** One entry of `st.session_state.messages`. */
  datatype Message = Message(role: Role, content: string)

  /** The four entries of `st.session_state`. */
  datatype SessionState = SessionState(
    phase: Phase,
    candidate: map<Field, Value>,
    messages: seq<Message>,
    questions: seq<string>)

  // ---------------------------------------------------------------------------
  // constants

  const EndKeywords: set<string> := {"end", "exit", "quit", "bye", "goodbye", "thanks", "thank you"}

  /** The fields in the order `FIELDS` lists them. */
  const Fields: seq<Field> := [FullName, Email, Phone, ExperienceYears, DesiredPositions, Location, TechStack]

  /** The prompt `FIELDS` pairs with each field. */
  function Prompt(f: Field): string {
    match f
    case FullName => "Please share your Full Name."
    case Email => "What's your Email Address?"
    case Phone => "Your Phone Number (with country code if outside India)."
    case ExperienceYears => "How many Years of Experience do you have? (e.g., 2, 3.5)"
    case DesiredPositions => "What role(s) are you applying for? (e.g., 'Data Scientist', 'ML Engineer')"
    case Location => "Your Current Location (City, Country)."
    case TechStack => "List your Tech Stack: programming languages, frameworks, databases, tools (comma-separated)."
  }

  const GreetingText: string :=
    "Hello! I\U{2019}m **TalentScout**, your hiring assistant. "
    + "I\U{2019}ll collect a few details and then ask technical questions based on your tech stack. "
    + "You can type **end/exit/quit** anytime to finish."

  const EndClosing: string :=
    "Thank you for your time! \U{1F389} We\U{2019}ve recorded your info. "
    + "Our team will review and get back to you with the next steps."

  const EmailReprompt: string :=
    "That email doesn't look valid. Please provide a valid email (e.g., name@example.com)."

  const PhoneReprompt: string :=
    "Please enter a valid phone number (digits, spaces, +, -, parentheses allowed)."

  const ExperienceReprompt: string := "Please enter your experience in years (e.g., 2 or 3.5)."

  const Thanks: string := "Thanks!"

  const AskTechStack: string :=
    "Could you please provide your tech stack (languages, frameworks, databases, tools)?"

  const OfflineHeader: string := "**Here are your tailored technical questions (offline mode):**\n\n"

  const LlmHeader: string := "**Here are your tailored technical questions:**\n\n"

  const ScreeningClosing: string :=
    "Thanks for completing the screening! We\U{2019}ll review your responses and reach out with next steps. "
    + "If you wish to end now, type **end** or **exit**."

  // ---------------------------------------------------------------------------
  // get_next_field

  lemma FieldsInOrder()
    ensures |Fields| == 7
    ensures forall k :: 0 <= k < |Fields| ==> Index(Fields[k]) == k
    ensures forall f :: Fields[Index(f)] == f
  {
  }

  /** The first field of `Fields[k..]` whose value is missing or falsy. */
  function FirstUnfilledFrom(c: map<Field, Value>, k: nat): (r: Option<Field>)
    requires k <= |Fields|
    ensures r.None? <==> forall j :: k <= j < |Fields| ==> Filled(c, Fields[j])
    ensures r.Some? ==> exists j :: k <= j < |Fields| && Fields[j] == r.value
    ensures r.Some? ==> !Filled(c, r.value) && forall j :: k <= j < Index(r.value) ==> Filled(c, Fields[j])
    decreases |Fields| - k
  {
    FieldsInOrder();
    if k == |Fields| then None
    else if !Filled(c, Fields[k]) then Some(Fields[k])
    else FirstUnfilledFrom(c, k + 1)
  }

  /**
    `get_next_field`: the first field, in collection order, that is missing
    or falsy; none once all seven are truthy.
  */
  function NextField(c: map<Field, Value>): (r: Option<Field>)
    ensures r.None? <==> forall f :: Filled(c, f)
    ensures r.Some? ==> !Filled(c, r.value)
    ensures r.Some? ==> forall f :: Index(f) < Index(r.value) ==> Filled(c, f)
  {
    FieldsInOrder();
    var r := FirstUnfilledFrom(c, 0);
    assert r.None? ==> forall f :: Filled(c, f) by {
      if r.None? {
        forall f ensures Filled(c, f) {
          assert Fields[Index(f)] == f;
        }
      }
    }
    assert r.Some? ==> forall f :: Index(f) < Index(r.value) ==> Filled(c, f) by {
      if r.Some? {
        forall f | Index(f) < Index(r.value) ensures Filled(c, f) {
          assert Fields[Index(f)] == f;
        }
      }
    }
    r
  }

  /** `next_prompt or "Thanks!"` after a field was stored. */
  function ReplyAfter(c: map<Field, Value>): string {
    match NextField(c)
    case Some(f) => Prompt(f)
    case None => Thanks
  }

  // ---------------------------------------------------------------------------
  // the experience answer

  /** The index of the first decimal digit, or -1. */
  function FirstDigit(s: string): (r: int)
    ensures -1 <= r < |s|
    ensures r == -1 <==> forall k :: 0 <= k < |s| ==> !IsDigit(s[k])
    ensures r >= 0 ==> IsDigit(s[r]) && forall k :: 0 <= k < r ==> !IsDigit(s[k])
  {
    if s == [] then -1
    else if IsDigit(s[0]) then 0
    else
      var r := FirstDigit(s[1..]);
      assert forall k :: 1 <= k < |s| ==> s[k] == s[1..][k - 1];
      if r == -1 then -1 else r + 1
  }

  /** The end of the run of digits starting at `i`. */
  function DigitRunEnd(s: string, i: nat): (j: nat)
    requires i <= |s|
    ensures i <= j <= |s|
    ensures forall k :: i <= k < j ==> IsDigit(s[k])
    ensures j == |s| || !IsDigit(s[j])
    decreases |s| - i
  {
    if i < |s| && IsDigit(s[i]) then DigitRunEnd(s, i + 1) else i
  }

  /**
    `re.findall(r"[0-9]+\.?[0-9]*", value)[0]`: the leftmost match, which
    starts at the first digit and extends greedily over digits, one optional
    point and more digits; none when the answer has no digit.
  */
  function FirstNumeral(value: string): (r: Option<Numeral>)
    ensures r.None? <==> forall k :: 0 <= k < |value| ==> !IsDigit(value[k])
    ensures r.Some? ==> OccursAt(r.value, value, FirstDigit(value))
    ensures r.Some? ==>
      var e := FirstDigit(value) + |r.value|;
      e == |value| || (!IsDigit(value[e]) && (value[e] == '.' ==> '.' in r.value))
  {
    var i := FirstDigit(value);
    if i < 0 then None
    else
      var j := DigitRunEnd(value, i);
      var dot := j < |value| && value[j] == '.';
      var k := if dot then DigitRunEnd(value, j + 1) else j;
      NumeralRun(value, i, j, k);
      Some(value[i..k])
  }

  /** A run of digits, optionally followed by a point and more digits, is a numeral. */
  lemma NumeralRun(value: string, i: nat, j: nat, k: nat)
    requires i < j <= k <= |value|
    requires forall a :: i <= a < j ==> IsDigit(value[a])
    requires k == j || (value[j] == '.' && forall a :: j < a < k ==> IsDigit(value[a]))
    ensures IsNumeral(value[i..k])
    ensures k > j ==> value[i..k][j - i] == '.'
  {
    var n := value[i..k];
    assert forall a :: 0 <= a < |n| ==> n[a] == value[i + a];
    assert forall a :: 0 <= a < |n| ==> IsDigit(n[a]) || (i + a == j && n[a] == '.');
  }

  // ---------------------------------------------------------------------------
  // validation of one answer

  /**
    What the handler stores for an answer to field `key`, or `None` when it
    rejects the answer: an email or phone number that fails validation, or an
    experience answer with no digit.
  */
  function Accept(key: Field, value: string): (r: Option<Value>)
    ensures r.None? <==>
      || (key == Email && !ValidateEmail(value))
      || (key == Phone && !ValidatePhone(value))
      || (key == ExperienceYears && forall k :: 0 <= k < |value| ==> !IsDigit(value[k]))
    ensures r.Some? ==> (r.value.Years? <==> key == ExperienceYears)
    ensures r.Some? && key != ExperienceYears ==> r.value == Text(value)
    ensures r.Some? && key == ExperienceYears ==> FirstNumeral(value) == Some(r.value.numeral)
  {
    match key
    case Email => if ValidateEmail(value) then Some(Text(value)) else None
    case Phone => if ValidatePhone(value) then Some(Text(value)) else None
    case ExperienceYears =>
      (match FirstNumeral(value)
       case None => None
       case Some(n) => Some(Years(n)))
    case _ => Some(Text(value))
  }

  /** The reply to a rejected answer. */
  function Reprompt(key: Field): string
    requires key == Email || key == Phone || key == ExperienceYears
  {
    if key == Email then EmailReprompt
    else if key == Phone then PhoneReprompt
    else ExperienceReprompt
  }

  // ---------------------------------------------------------------------------
  // questions from the language model, and the numbered reply

  /** `q.strip("- ").strip()`. */
  function CleanLine(q: string): string {
    Strip(StripChars(q, {'-', ' '}))
  }

  /** A question as the model's reply yields it: one line, no surrounding whitespace. */
  predicate IsCleanQuestion(q: string) {
    '\n' !in q && IsStripped(q, Whitespace)
  }

  /** A cleaned line has no line break and no surrounding whitespace. */
  lemma CleanLineShape(q: string)
    requires '\n' !in q
    ensures IsCleanQuestion(CleanLine(q))
  {
    var d := StripChars(q, {'-', ' '});
    StripCharsKeepsAbsent(q, {'-', ' '}, '\n');
    StripCharsKeepsAbsent(d, Whitespace, '\n');
    StripCharsIsStripped(d, Whitespace);
  }

  /** The kept lines, cleaned: `[clean(q) for q in lines if q.strip()]`. */
  function KeptLines(lines: seq<string>): (r: seq<string>)
    requires forall l :: l in lines ==> '\n' !in l
    ensures |r| <= |lines|
    ensures forall q :: q in r ==> IsCleanQuestion(q)
  {
    if lines == [] then []
    else
      var q := lines[0];
      CleanLineShape(q);
      (if Strip(q) != "" then [CleanLine(q)] else []) + KeptLines(lines[1..])
  }

  /**
    The questions taken from the model's reply: one per non-blank line, with
    dashes, blanks and whitespace trimmed from both ends.
  */
  function LlmQuestions(out: string): (r: seq<string>)
    ensures forall q :: q in r ==> IsCleanQuestion(q)
  {
    KeptLines(Split(out, '\n'))
  }

  /** `f"{i+1}. {q}"`. */
  function NumberedLine(i: nat, q: string): string {
    NatToString(i + 1) + ". " + q
  }

  function NumberedLines(qs: seq<string>): (r: seq<string>)
    ensures |r| == |qs| && forall i :: 0 <= i < |qs| ==> r[i] == NumberedLine(i, qs[i])
  {
    seq(|qs|, i requires 0 <= i < |qs| => NumberedLine(i, qs[i]))
  }

  /** `"\n".join(lines)`, which is empty for no lines. */
  function JoinLines(lines: seq<string>): string {
    if lines == [] then "" else Join(lines, '\n')
  }

  /** The numbered list of the questions, one per line. */
  function NumberedList(qs: seq<string>): string {
    JoinLines(NumberedLines(qs))
  }

  // ---------------------------------------------------------------------------
  // one script run

  /** The state before the first run. */
  function Initial(): SessionState {
    SessionState(Greeting, map[], [], [])
  }

  /** The greeting shown when the session is new and nothing has been said yet. */
  function Greet(s: SessionState): SessionState {
    if s.phase == Greeting && s.messages == [] then s.(messages := [Message(Assistant, GreetingText)]) else s
  }

  /** `user_input.strip().lower() in END_KEYWORDS`. */
  predicate IsEndCommand(input: string) {
    Lower(Strip(input)) in EndKeywords
  }

  function Say(s: SessionState, text: string): SessionState {
    s.(messages := s.messages + [Message(Assistant, text)])
  }

  /**
    The collecting branch: find the next field, validate the trimmed answer,
    store it or ask again, and move to questioning once nothing is missing.
  */
  function Collect(s: SessionState, value: string): SessionState {
    var s1 := s.(phase := Collecting);
    match NextField(s.candidate)
    case None => s1.(phase := Questioning)
    case Some(key) =>
      var s2 :=
        match Accept(key, value)
        case None => Say(s1, Reprompt(key))
        case Some(v) => Say(s1.(candidate := s.candidate[key := v]), ReplyAfter(s.candidate[key := v]));
      if NextField(s2.candidate).None? then s2.(phase := Questioning) else s2
  }

  /** The questions for a tech stack: the model's lines when it answered, otherwise those the offline generator draws from `bank`. */
  function SelectQuestions(techStack: string, llm: Option<string>, bank: seq<BankEntry>): seq<string> {
    match llm
    case None => OfflineQuestions(techStack, bank)
    case Some(out) => LlmQuestions(out)
  }

  function Header(llm: Option<string>): string {
    if llm.None? then OfflineHeader else LlmHeader
  }

  /** The questioning branch: ask for the tech stack again if it is falsy, otherwise pose the questions and end. */
  function AskQuestions(s: SessionState, llm: Option<string>, bank: seq<BankEntry>): SessionState {
    var techStack := Get(s.candidate, TechStack);
    if techStack.None? || !IsTruthy(techStack.value) then Say(s, AskTechStack)
    else
      var qs := SelectQuestions(TextOf(techStack.value), llm, bank);
      Say(Say(s.(questions := qs), Header(llm) + NumberedList(qs)), ScreeningClosing).(phase := Ended)
  }

  /** The input handler, for a non-empty input. */
  function Handle(s: SessionState, input: string, llm: Option<string>, bank: seq<BankEntry>): SessionState {
    if IsEndCommand(input) then
      Say(s.(phase := Ended, messages := s.messages + [Message(User, input)]), EndClosing)
    else
      var s1 := s.(messages := s.messages + [Message(User, input)]);
      var s2 := if s1.phase == Greeting || s1.phase == Collecting then Collect(s1, Strip(input)) else s1;
      if s2.phase == Questioning then AskQuestions(s2, llm, bank) else s2
  }

  /** One run of the script with the chat input `input` (empty when nothing was typed). */
  function Step(s: SessionState, input: string, llm: Option<string>, bank: seq<BankEntry>): SessionState {
    var g := Greet(s);
    if input == "" then g else Handle(g, input, llm, bank)
  }

  // ---------------------------------------------------------------------------
  // properties of a run

  /** `b` is `a` followed by at most `n` more elements. */
  ghost predicate Extends<T>(a: seq<T>, b: seq<T>, n: nat) {
    |a| <= |b| <= |a| + n && b[..|a|] == a
  }

  lemma ExtendsByAppend<T>(a: seq<T>, x: seq<T>, n: nat)
    requires |x| <= n
    ensures Extends(a, a + x, n)
  {
    assert (a + x)[..|a|] == a;
  }

  lemma ExtendsTrans<T>(a: seq<T>, b: seq<T>, c: seq<T>, m: nat, n: nat)
    requires Extends(a, b, m) && Extends(b, c, n)
    ensures Extends(a, c, m + n)
  {
    assert c[..|a|] == c[..|b|][..|a|];
  }

  lemma ExtendsWeaken<T>(a: seq<T>, b: seq<T>, m: nat, n: nat)
    requires Extends(a, b, m) && m <= n
    ensures Extends(a, b, n)
  {
  }

  lemma LastTwo<T>(a: seq<T>, x: T, y: T)
    ensures |a + [x, y]| >= 2 && (a + [x, y])[|a + [x, y]| - 2..] == [x, y]
  {
  }

  lemma AppendTwo<T>(a: seq<T>, x: T, y: T)
    ensures (a + [x]) + [y] == a + [x, y]
  {
  }

  /** The greeting check changes only an empty transcript of a new session. */
  lemma GreetFacts(s: SessionState)
    ensures Greet(s).phase == s.phase && Greet(s).candidate == s.candidate && Greet(s).questions == s.questions
    ensures Greet(s).messages == if s.phase == Greeting && s.messages == [] then [Message(Assistant, GreetingText)] else s.messages
  {
  }

  /** The questioning branch, by whether the stored tech stack is truthy. */
  lemma AskQuestionsFacts(s: SessionState, llm: Option<string>, bank: seq<BankEntry>)
    ensures AskQuestions(s, llm, bank).candidate == s.candidate
    ensures Filled(s.candidate, TechStack) ==>
      && AskQuestions(s, llm, bank).phase == Ended
      && AskQuestions(s, llm, bank).questions == SelectQuestions(TextOf(s.candidate[TechStack]), llm, bank)
      && AskQuestions(s, llm, bank).messages == s.messages +
         [Message(Assistant, Header(llm) + NumberedList(AskQuestions(s, llm, bank).questions)), Message(Assistant, ScreeningClosing)]
    ensures !Filled(s.candidate, TechStack) ==>
      && AskQuestions(s, llm, bank).phase == s.phase
      && AskQuestions(s, llm, bank).questions == s.questions
      && AskQuestions(s, llm, bank).messages == s.messages + [Message(Assistant, AskTechStack)]
  {
  }

  /**
    The collecting branch: the phase becomes collecting, or questioning
    exactly when no field is missing afterwards; at most the next field is
    written, and at most one reply is added.
  */
  lemma CollectFacts(s: SessionState, value: string)
    ensures Collect(s, value).questions == s.questions
    ensures Collect(s, value).phase == Collecting || Collect(s, value).phase == Questioning
    ensures Collect(s, value).phase == Questioning <==> NextField(Collect(s, value).candidate).None?
    ensures NextField(s.candidate).None? ==>
      Collect(s, value).candidate == s.candidate && Collect(s, value).messages == s.messages
    ensures NextField(s.candidate).Some? && Accept(NextField(s.candidate).value, value).None? ==>
      && Collect(s, value).candidate == s.candidate
      && Collect(s, value).messages == s.messages + [Message(Assistant, Reprompt(NextField(s.candidate).value))]
    ensures NextField(s.candidate).Some? && Accept(NextField(s.candidate).value, value).Some? ==>
      && Collect(s, value).candidate ==
         s.candidate[NextField(s.candidate).value := Accept(NextField(s.candidate).value, value).value]
      && Collect(s, value).messages == s.messages + [Message(Assistant, ReplyAfter(Collect(s, value).candidate))]
  {
  }

  /** The handler on an input that is not an end keyword: record it, collect if collecting, then ask if questioning. */
  lemma HandleFacts(s: SessionState, input: string, llm: Option<string>, bank: seq<BankEntry>)
    requires !IsEndCommand(input)
    ensures
      var s1 := s.(messages := s.messages + [Message(User, input)]);
      var s2 := if s.phase == Greeting || s.phase == Collecting then Collect(s1, Strip(input)) else s1;
      Handle(s, input, llm, bank) == if s2.phase == Questioning then AskQuestions(s2, llm, bank) else s2
  {
  }

  /** Each piece of the handler only appends to the transcript: the greeting at most one message, */
  lemma GreetExtends(s: SessionState)
    ensures Extends(s.messages, Greet(s).messages, 1)
  {
    GreetFacts(s);
    if s.phase == Greeting && s.messages == [] {
      ExtendsByAppend(s.messages, [Message(Assistant, GreetingText)], 1);
    } else {
      ExtendsByAppend(s.messages, [], 1);
    }
  }

  /** collection at most one, */
  lemma CollectExtends(s: SessionState, value: string)
    ensures Extends(s.messages, Collect(s, value).messages, 1)
  {
    CollectFacts(s, value);
    var r := Collect(s, value);
    var f := NextField(s.candidate);
    if f.None? {
      ExtendsByAppend(s.messages, [], 1);
    } else if Accept(f.value, value).None? {
      ExtendsByAppend(s.messages, [Message(Assistant, Reprompt(f.value))], 1);
    } else {
      ExtendsByAppend(s.messages, [Message(Assistant, ReplyAfter(r.candidate))], 1);
    }
  }

  /** and questioning at most two. */
  lemma AskQuestionsExtends(s: SessionState, llm: Option<string>, bank: seq<BankEntry>)
    ensures Extends(s.messages, AskQuestions(s, llm, bank).messages, 2)
  {
    AskQuestionsFacts(s, llm, bank);
    var r := AskQuestions(s, llm, bank);
    if Filled(s.candidate, TechStack) {
      ExtendsByAppend(s.messages, [Message(Assistant, Header(llm) + NumberedList(r.questions)), Message(Assistant, ScreeningClosing)], 2);
    } else {
      ExtendsByAppend(s.messages, [Message(Assistant, AskTechStack)], 2);
    }
  }

  /** An end keyword, whatever the phase, ends the session and changes nothing else. */
  lemma EndKeywordPrecedence(s: SessionState, input: string, llm: Option<string>, bank: seq<BankEntry>)
    requires input != "" && IsEndCommand(input)
    ensures Step(s, input, llm, bank).phase == Ended
    ensures Step(s, input, llm, bank).candidate == s.candidate
    ensures Step(s, input, llm, bank).questions == s.questions
    ensures Step(s, input, llm, bank).messages ==
      Greet(s).messages + [Message(User, input), Message(Assistant, EndClosing)]
  {
    GreetFacts(s);
    EndBranch(Greet(s), input, llm, bank);
  }

  /** The end branch of the handler. */
  lemma EndBranch(s: SessionState, input: string, llm: Option<string>, bank: seq<BankEntry>)
    requires IsEndCommand(input)
    ensures Handle(s, input, llm, bank) == Say(s.(phase := Ended, messages := s.messages + [Message(User, input)]), EndClosing)
  {
  }

  /** Surrounding whitespace does not change whether an input ends the session. */
  lemma EndCommandIgnoresPadding(p: string, w: string, q: string)
    requires AllIn(p, Whitespace) && AllIn(q, Whitespace)
    ensures IsEndCommand(p + w + q) <==> IsEndCommand(w)
  {
    StripCharsPadding(p, w, q, Whitespace);
  }

  /** Letter case does not change whether an input ends the session. */
  lemma EndCommandIgnoresCase(w: string)
    ensures IsEndCommand(Lower(w)) <==> IsEndCommand(w)
  {
    StripLower(w);
    LowerTwice(Strip(w));
  }

  /** A falsy answer leaves its field the first missing one, so it is asked again. */
  lemma FalsyAnswerAskedAgain(c: map<Field, Value>, f: Field, v: Value)
    requires NextField(c) == Some(f) && !IsTruthy(v)
    ensures NextField(c[f := v]) == Some(f)
  {
    var c' := c[f := v];
    var g := NextField(c').value;
    if Index(g) < Index(f) {
      assert Filled(c, g);
    }
  }

  /** A truthy answer moves collection to a later field, or completes it. */
  lemma TruthyAnswerAdvances(c: map<Field, Value>, f: Field, v: Value)
    requires NextField(c) == Some(f) && IsTruthy(v)
    ensures NextField(c[f := v]).Some? ==> Index(f) < Index(NextField(c[f := v]).value)
  {
  }

  /** An experience answer is accepted exactly when it contains a digit, and the stored number is never negative. */
  lemma ExperienceAnswer(value: string)
    ensures Accept(ExperienceYears, value).Some? <==> exists k :: 0 <= k < |value| && IsDigit(value[k])
    ensures Accept(ExperienceYears, value).Some? ==> NumeralValue(Accept(ExperienceYears, value).value.numeral) >= 0.0
  {
    if Accept(ExperienceYears, value).Some? {
      NumeralValueSign(Accept(ExperienceYears, value).value.numeral);
    }
  }

  /** A rejected answer leaves the profile as it was and asks again for the same field. */
  lemma RejectedAnswer(s: SessionState, input: string, llm: Option<string>, bank: seq<BankEntry>, f: Field)
    requires input != "" && !IsEndCommand(input)
    requires s.phase == Greeting || s.phase == Collecting
    requires NextField(s.candidate) == Some(f) && Accept(f, Strip(input)).None?
    ensures Step(s, input, llm, bank).phase == Collecting
    ensures Step(s, input, llm, bank).candidate == s.candidate
    ensures Step(s, input, llm, bank).questions == s.questions
    ensures Step(s, input, llm, bank).messages == Greet(s).messages + [Message(User, input), Message(Assistant, Reprompt(f))]
  {
    var g := Greet(s);
    GreetFacts(s);
    HandleFacts(g, input, llm, bank);
    var s1 := g.(messages := g.messages + [Message(User, input)]);
    var s2 := Collect(s1, Strip(input));
    CollectFacts(s1, Strip(input));
    assert s2.candidate == s.candidate;
    assert s2.phase == Collecting;
    assert Step(s, input, llm, bank) == s2;
    AppendTwo(g.messages, Message(User, input), Message(Assistant, Reprompt(f)));
  }

  /**
    An accepted answer is stored under the field asked for; while a field is
    still missing, the reply is that field's prompt.
  */
  lemma AcceptedAnswer(s: SessionState, input: string, llm: Option<string>, bank: seq<BankEntry>, f: Field, v: Value)
    requires input != "" && !IsEndCommand(input)
    requires s.phase == Greeting || s.phase == Collecting
    requires NextField(s.candidate) == Some(f) && Accept(f, Strip(input)) == Some(v)
    ensures Step(s, input, llm, bank).candidate == s.candidate[f := v]
    ensures NextField(s.candidate[f := v]).Some? ==>
      && Step(s, input, llm, bank).phase == Collecting
      && Step(s, input, llm, bank).questions == s.questions
      && Step(s, input, llm, bank).messages ==
         Greet(s).messages + [Message(User, input), Message(Assistant, Prompt(NextField(s.candidate[f := v]).value))]
  {
    var g := Greet(s);
    GreetFacts(s);
    HandleFacts(g, input, llm, bank);
    var s1 := g.(messages := g.messages + [Message(User, input)]);
    assert s1.candidate == s.candidate && s1.phase == s.phase;
    var s2 := Collect(s1, Strip(input));
    CollectFacts(s1, Strip(input));
    assert s2.candidate == s.candidate[f := v];
    if NextField(s2.candidate).None? {
      assert s2.phase == Questioning;
      assert Step(s, input, llm, bank) == AskQuestions(s2, llm, bank);
      AskQuestionsFacts(s2, llm, bank);
    } else {
      assert s2.phase == Collecting;
      assert Step(s, input, llm, bank) == s2;
      var reply := Message(Assistant, Prompt(NextField(s2.candidate).value));
      assert ReplyAfter(s2.candidate) == reply.content;
      assert s2.messages == (g.messages + [Message(User, input)]) + [reply];
      AppendTwo(g.messages, Message(User, input), reply);
    }
  }

  /** A run changes at most the field `get_next_field` named at its start. */
  lemma OnlyNextFieldWritten(s: SessionState, input: string, llm: Option<string>, bank: seq<BankEntry>)
    ensures forall f :: Get(Step(s, input, llm, bank).candidate, f) != Get(s.candidate, f) ==> NextField(s.candidate) == Some(f)
  {
    var g := Greet(s);
    GreetFacts(s);
    if input != "" && !IsEndCommand(input) {
      HandleFacts(g, input, llm, bank);
      var s1 := g.(messages := g.messages + [Message(User, input)]);
      CollectFacts(s1, Strip(input));
      AskQuestionsFacts(Collect(s1, Strip(input)), llm, bank);
      AskQuestionsFacts(s1, llm, bank);
    }
  }

  lemma BlankStripsToEmpty(input: string)
    requires AllIn(input, Whitespace)
    ensures Strip(input) == ""
  {
    assert StrippedAt(input, Whitespace, 0, 0);
    StrippedAtUnique(input, Whitespace, 0, 0);
  }

  /** A blank input is not an end keyword. */
  lemma BlankIsNoEndCommand(input: string)
    requires AllIn(input, Whitespace)
    ensures Strip(input) == "" && !IsEndCommand(input)
  {
    BlankStripsToEmpty(input);
    assert Lower("") == "";
  }

  /** A blank answer to a free-text field is stored empty, which is falsy, so the same field is asked again. */
  lemma BlankAnswerAskedAgain(s: SessionState, input: string, llm: Option<string>, bank: seq<BankEntry>, f: Field)
    requires input != "" && AllIn(input, Whitespace)
    requires s.phase == Greeting || s.phase == Collecting
    requires NextField(s.candidate) == Some(f) && f != Email && f != Phone && f != ExperienceYears
    ensures Step(s, input, llm, bank).phase == Collecting
    ensures NextField(Step(s, input, llm, bank).candidate) == Some(f)
    ensures Step(s, input, llm, bank).messages == Greet(s).messages + [Message(User, input), Message(Assistant, Prompt(f))]
  {
    BlankIsNoEndCommand(input);
    FalsyAnswerAskedAgain(s.candidate, f, Text(""));
    AcceptedAnswer(s, input, llm, bank, f, Text(""));
  }

  /** An experience answer whose number is all zeros is stored as zero, which is falsy, so it is asked again. */
  lemma ZeroExperienceAskedAgain(s: SessionState, input: string, llm: Option<string>, bank: seq<BankEntry>)
    requires input != "" && !IsEndCommand(input)
    requires s.phase == Greeting || s.phase == Collecting
    requires NextField(s.candidate) == Some(ExperienceYears)
    requires FirstNumeral(Strip(input)).Some? && AllZeros(FirstNumeral(Strip(input)).value)
    ensures Step(s, input, llm, bank).phase == Collecting
    ensures NextField(Step(s, input, llm, bank).candidate) == Some(ExperienceYears)
  {
    var n := FirstNumeral(Strip(input)).value;
    assert Accept(ExperienceYears, Strip(input)) == Some(Years(n));
    NumeralValueSign(n);
    assert !IsTruthy(Years(n));
    FalsyAnswerAskedAgain(s.candidate, ExperienceYears, Years(n));
    AcceptedAnswer(s, input, llm, bank, ExperienceYears, Years(n));
  }

  /** The first non-empty input always leaves the greeting phase. */
  lemma GreetingLeaves(s: SessionState, input: string, llm: Option<string>, bank: seq<BankEntry>)
    requires s.phase == Greeting && input != ""
    ensures Step(s, input, llm, bank).phase != Greeting
  {
    var g := Greet(s);
    GreetFacts(s);
    if !IsEndCommand(input) {
      HandleFacts(g, input, llm, bank);
      var s1 := g.(messages := g.messages + [Message(User, input)]);
      var s2 := Collect(s1, Strip(input));
      CollectFacts(s1, Strip(input));
      AskQuestionsFacts(s2, llm, bank);
    }
  }

  /**
    A run that starts anywhere but in questioning does not end in it: on
    reaching questioning every field is truthy, the tech stack included, so
    the questions are posed and the session ends in the same run.
  */
  lemma NeverRestsInQuestioning(s: SessionState, input: string, llm: Option<string>, bank: seq<BankEntry>)
    requires s.phase != Questioning
    ensures Step(s, input, llm, bank).phase != Questioning
  {
    var g := Greet(s);
    GreetFacts(s);
    if input != "" && !IsEndCommand(input) {
      HandleFacts(g, input, llm, bank);
      var s1 := g.(messages := g.messages + [Message(User, input)]);
      CollectFacts(s1, Strip(input));
      AskQuestionsFacts(Collect(s1, Strip(input)), llm, bank);
      AskQuestionsFacts(s1, llm, bank);
    }
  }

  /** Once questioning is reached, the profile no longer changes. */
  lemma CandidateFrozen(s: SessionState, input: string, llm: Option<string>, bank: seq<BankEntry>)
    requires s.phase == Questioning || s.phase == Ended
    ensures Step(s, input, llm, bank).candidate == s.candidate
  {
    var g := Greet(s);
    GreetFacts(s);
    if input != "" && !IsEndCommand(input) {
      HandleFacts(g, input, llm, bank);
      var s1 := g.(messages := g.messages + [Message(User, input)]);
      CollectFacts(s1, Strip(input));
      AskQuestionsFacts(Collect(s1, Strip(input)), llm, bank);
      AskQuestionsFacts(s1, llm, bank);
    }
  }

  /** An ended session stays ended; anything but an end keyword is only recorded. */
  lemma EndedAbsorbing(s: SessionState, input: string, llm: Option<string>, bank: seq<BankEntry>)
    requires s.phase == Ended
    ensures Step(s, input, llm, bank).phase == Ended
    ensures Step(s, input, llm, bank).candidate == s.candidate
    ensures Step(s, input, llm, bank).questions == s.questions
    ensures input != "" && !IsEndCommand(input) ==> Step(s, input, llm, bank).messages == s.messages + [Message(User, input)]
    ensures input == "" ==> Step(s, input, llm, bank) == s
  {
    var g := Greet(s);
    GreetFacts(s);
    if input != "" && !IsEndCommand(input) {
      HandleFacts(g, input, llm, bank);
      var s1 := g.(messages := g.messages + [Message(User, input)]);
      CollectFacts(s1, Strip(input));
      AskQuestionsFacts(Collect(s1, Strip(input)), llm, bank);
      AskQuestionsFacts(s1, llm, bank);
    }
  }

  /** The handler on an input that is not an end keyword adds at most four messages. */
  lemma HandleExtends(g: SessionState, input: string, llm: Option<string>, bank: seq<BankEntry>)
    requires !IsEndCommand(input)
    ensures Extends(g.messages, Handle(g, input, llm, bank).messages, 4)
  {
    HandleFacts(g, input, llm, bank);
    var r := Handle(g, input, llm, bank);
    var s1 := g.(messages := g.messages + [Message(User, input)]);
    ExtendsByAppend(g.messages, [Message(User, input)], 1);
    var s2 := if g.phase == Greeting || g.phase == Collecting then Collect(s1, Strip(input)) else s1;
    if g.phase == Greeting || g.phase == Collecting {
      CollectExtends(s1, Strip(input));
      ExtendsTrans(g.messages, s1.messages, s2.messages, 1, 1);
    } else {
      ExtendsWeaken(g.messages, s1.messages, 1, 2);
    }
    if s2.phase == Questioning {
      assert r == AskQuestions(s2, llm, bank);
      AskQuestionsExtends(s2, llm, bank);
      ExtendsTrans(g.messages, s2.messages, r.messages, 2, 2);
    } else {
      assert r == s2;
      ExtendsWeaken(g.messages, r.messages, 2, 4);
    }
  }

  /** The transcript only grows, by at most five messages a run. */
  lemma TranscriptAppendOnly(s: SessionState, input: string, llm: Option<string>, bank: seq<BankEntry>)
    ensures Extends(s.messages, Step(s, input, llm, bank).messages, 5)
  {
    var g := Greet(s);
    GreetExtends(s);
    var r := Step(s, input, llm, bank);
    if input == "" {
      assert r == g;
    } else if IsEndCommand(input) {
      EndKeywordPrecedence(s, input, llm, bank);
      ExtendsByAppend(g.messages, [Message(User, input), Message(Assistant, EndClosing)], 4);
      ExtendsTrans(s.messages, g.messages, r.messages, 1, 4);
    } else {
      HandleExtends(g, input, llm, bank);
      ExtendsTrans(s.messages, g.messages, r.messages, 1, 4);
    }
  }

  /**
    A collecting run ends the session exactly when no field is missing after
    it; the questions are then the model's lines when it answered, otherwise
    the offline ones, and the last two messages are the numbered questions and
    the closing note.
  */
  lemma CollectingRunCompletes(s: SessionState, input: string, llm: Option<string>, bank: seq<BankEntry>)
    requires input != "" && !IsEndCommand(input)
    requires s.phase == Greeting || s.phase == Collecting
    ensures Step(s, input, llm, bank).phase == Ended <==> NextField(Step(s, input, llm, bank).candidate).None?
    ensures Step(s, input, llm, bank).phase != Ended ==>
      Step(s, input, llm, bank).phase == Collecting && Step(s, input, llm, bank).questions == s.questions
    ensures
      var r := Step(s, input, llm, bank);
      r.phase == Ended ==>
        && TechStack in r.candidate
        && r.questions == SelectQuestions(TextOf(r.candidate[TechStack]), llm, bank)
        && |r.messages| >= 2
        && r.messages[|r.messages| - 2..] ==
           [Message(Assistant, Header(llm) + NumberedList(r.questions)), Message(Assistant, ScreeningClosing)]
  {
    var g := Greet(s);
    GreetFacts(s);
    HandleFacts(g, input, llm, bank);
    var s1 := g.(messages := g.messages + [Message(User, input)]);
    var s2 := Collect(s1, Strip(input));
    CollectFacts(s1, Strip(input));
    var r := Step(s, input, llm, bank);
    if s2.phase == Questioning {
      assert r == AskQuestions(s2, llm, bank);
      assert Filled(s2.candidate, TechStack);
      AskQuestionsFacts(s2, llm, bank);
      assert r.candidate == s2.candidate;
      LastTwo(s2.messages, Message(Assistant, Header(llm) + NumberedList(r.questions)), Message(Assistant, ScreeningClosing));
    } else {
      assert r == s2;
    }
  }

  // ---------------------------------------------------------------------------
  // the session invariant

  /** Every value has its field's type: a number for the experience, text for the others. */
  predicate WellTyped(c: map<Field, Value>) {
    forall f :: f in c ==> (c[f].Years? <==> f == ExperienceYears)
  }

  /**
    What holds between runs: the session never rests in questioning, values
    are well typed, and questions exist only once the session has ended.
  */
  predicate Inv(s: SessionState) {
    && s.phase != Questioning
    && WellTyped(s.candidate)
    && (s.phase != Ended ==> s.questions == [])
  }

  lemma InitialInv()
    ensures Inv(Initial())
  {
  }

  /** Storing an accepted answer keeps every value of its field's type. */
  lemma CollectWellTyped(s: SessionState, value: string)
    requires WellTyped(s.candidate)
    ensures WellTyped(Collect(s, value).candidate)
  {
    CollectFacts(s, value);
    var f := NextField(s.candidate);
    if f.Some? && Accept(f.value, value).Some? {
      var c := s.candidate[f.value := Accept(f.value, value).value];
      assert Collect(s, value).candidate == c;
      forall g | g in c ensures c[g].Years? <==> g == ExperienceYears {
        if g != f.value {
          assert c[g] == s.candidate[g];
        }
      }
    }
  }

  lemma StepPreservesInv(s: SessionState, input: string, llm: Option<string>, bank: seq<BankEntry>)
    requires Inv(s)
    ensures Inv(Step(s, input, llm, bank))
  {
    NeverRestsInQuestioning(s, input, llm, bank);
    var g := Greet(s);
    GreetFacts(s);
    var r := Step(s, input, llm, bank);
    if input != "" && !IsEndCommand(input) {
      HandleFacts(g, input, llm, bank);
      var s1 := g.(messages := g.messages + [Message(User, input)]);
      if g.phase == Ended {
        assert r == s1;
      } else {
        var s2 := Collect(s1, Strip(input));
        CollectFacts(s1, Strip(input));
        CollectWellTyped(s1, Strip(input));
        AskQuestionsFacts(s2, llm, bank);
        assert r.candidate == s2.candidate;
        assert r.phase != Ended ==> r.questions == s2.questions;
      }
    } else if input != "" {
      EndKeywordPrecedence(s, input, llm, bank);
    }
  }

  // ---------------------------------------------------------------------------
  // the questions in the reply

  lemma NumberedLineHasNoBreak(i: nat, q: string)
    requires '\n' !in q
    ensures '\n' !in NumberedLine(i, q)
  {
    var d := NatToString(i + 1);
    assert NumberedLine(i, q) == d + ". " + q;
    assert '\n' !in d;
  }

  /** The numbered reply reads back, line by line, as "1. q1", "2. q2", and so on. */
  lemma NumberedListLines(qs: seq<string>)
    requires qs != [] && forall q :: q in qs ==> '\n' !in q
    ensures Split(NumberedList(qs), '\n') == NumberedLines(qs)
  {
    var lines := NumberedLines(qs);
    forall k | 0 <= k < |lines| ensures '\n' !in lines[k] {
      NumberedLineHasNoBreak(k, qs[k]);
    }
    SplitJoin(lines, '\n');
  }

  /** Line `i` starts with the decimal numeral of `i + 1`. */
  lemma NumberedLineReadsBack(i: nat, q: string)
    ensures exists d :: NumberedLine(i, q) == d + ". " + q && AllDigits(d) && DigitsValue(d) == i + 1
  {
    NatToStringRoundTrip(i + 1);
    var d := NatToString(i + 1);
    assert NumberedLine(i, q) == d + ". " + q;
  }

  lemma {:induction false} KeptLinesAppend(x: seq<string>, y: seq<string>)
    requires forall l :: l in x ==> '\n' !in l
    requires forall l :: l in y ==> '\n' !in l
    ensures KeptLines(x + y) == KeptLines(x) + KeptLines(y)
  {
    if x == [] {
      assert x + y == y;
      assert KeptLines(x) == [];
    } else {
      var h := if Strip(x[0]) != "" then [CleanLine(x[0])] else [];
      ConcatTail(x, y);
      assert KeptLines(x + y) == h + KeptLines(x[1..] + y);
      assert KeptLines(x) == h + KeptLines(x[1..]);
      KeptLinesAppend(x[1..], y);
      var a, b := KeptLines(x[1..]), KeptLines(y);
      ConcatAssoc(h, a, b);
    }
  }

  /** The model's reply is read line by line: the questions of two lines are those of each, in order. */
  lemma LlmQuestionsAppend(a: string, b: string)
    requires '\n' !in a
    ensures LlmQuestions(a + "\n" + b) == LlmQuestions(a) + LlmQuestions(b)
  {
    SplitAppend(a, b, '\n');
    assert a + "\n" + b == a + ['\n'] + b;
    KeptLinesAppend(Split(a, '\n'), Split(b, '\n'));
  }

  /** One line gives one question, cleaned, unless it is blank. */
  lemma LlmQuestionsOfLine(line: string)
    requires '\n' !in line
    ensures LlmQuestions(line) == if Strip(line) == "" then [] else [CleanLine(line)]
  {
    SplitNoSeparator(line, '\n');
    assert [line][1..] == [];
  }

  /**
    A line of dashes is not blank, so it is kept, but cleaning leaves it
    empty: it becomes an empty question in the numbered reply.
  */
  lemma DashLineGivesEmptyQuestion()
    ensures LlmQuestions("---") == [""]
  {
    LlmQuestionsOfLine("---");
    DashLineNotBlank();
    DashLineCleansEmpty();
  }

  lemma DashIsNoSpace()
    ensures '-' !in Whitespace
  {
  }

  lemma DashLineNotBlank()
    ensures Strip("---") == "---"
  {
    var d := "---";
    DashIsNoSpace();
    assert |d| == 3 && d[0] == '-' && d[2] == '-';
    StripCharsOfStripped(d, Whitespace);
  }

  lemma DashLineCleansEmpty()
    ensures CleanLine("---") == ""
  {
    var d := "---";
    assert AllIn(d, {'-', ' '});
    StrippedAtUnique(d, {'-', ' '}, 0, 0);
    StrippedAtUnique("", Whitespace, 0, 0);
  }

  // ---------------------------------------------------------------------------
  // the script, as it runs

  /**
    `st.session_state`: the four entries the script reads and updates in
    place, one run of the script per chat input.
  */
  class Session {
    /** The question bank of the offline generator, the one written in utils.py. */
    const bank: seq<BankEntry>
    var phase: Phase
    var candidate: map<Field, Value>
    var messages: seq<Message>
    var questions: seq<string>

    function State(): SessionState
      reads this
    {
      SessionState(phase, candidate, messages, questions)
    }

    /** The entries as the first run creates them. */
    constructor()
      ensures State() == Initial() && bank == Bank
    {
      bank := Bank;
      phase := Greeting;
      candidate := map[];
      messages := [];
      questions := [];
    }

    /** "Reset Session": the state is cleared and created afresh. */
    method Reset()
      modifies this
      ensures State() == Initial()
    {
      phase := Greeting;
      candidate := map[];
      messages := [];
      questions := [];
    }

    /** The initial greeting, shown when the session is new and nothing has been said yet. */
    method GreetIfNew()
      modifies this
      ensures State() == Greet(old(State()))
    {
      if phase == Greeting && messages == [] {
        messages := messages + [Message(Assistant, GreetingText)];
      }
    }

    /** An end keyword: the session ends, the input and the closing line are recorded. */
    method EndSession(input: string)
      modifies this
      ensures State() == Say(old(State()).(phase := Ended, messages := old(messages) + [Message(User, input)]), EndClosing)
    {
      phase := Ended;
      messages := messages + [Message(User, input)];
      messages := messages + [Message(Assistant, EndClosing)];
    }

    /** Stores `value` under `key` and replies with the next prompt, or "Thanks!". */
    method Store(key: Field, value: Value) returns (reply: string)
      modifies this
      ensures State() == old(State()).(candidate := old(candidate)[key := value])
      ensures reply == ReplyAfter(candidate)
    {
      candidate := candidate[key := value];
      reply := ReplyAfter(candidate);
    }

    /** The collecting branch, with the trimmed answer `value`. */
    method CollectAnswer(value: string)
      modifies this
      ensures State() == Collect(old(State()), value)
    {
      CollectFacts(State(), value);
      phase := Collecting;
      var next := NextField(candidate);
      if next.None? {
        phase := Questioning;
      } else {
        var reply := StoreAnswer(next.value, value);
        messages := messages + [Message(Assistant, reply)];
        if phase == Collecting && NextField(candidate).None? {
          phase := Questioning;
        }
      }
    }

    /**
      The per-field validation of an answer to `key`: store the accepted value
      and reply with the next prompt, or leave the state alone and reprompt.
    */
    method StoreAnswer(key: Field, value: string) returns (reply: string)
      modifies this
      ensures Accept(key, value).None? ==> State() == old(State()) && reply == Reprompt(key)
      ensures Accept(key, value).Some? ==>
        && State() == old(State()).(candidate := old(candidate)[key := Accept(key, value).value])
        && reply == ReplyAfter(candidate)
    {
      if key == Email {
        if !ValidateEmail(value) {
          reply := EmailReprompt;
        } else {
          reply := Store(Email, Text(value));
        }
      } else if key == Phone {
        if !ValidatePhone(value) {
          reply := PhoneReprompt;
        } else {
          reply := Store(Phone, Text(value));
        }
      } else if key == ExperienceYears {
        var num := FirstNumeral(value);
        if num.None? {
          reply := ExperienceReprompt;
        } else {
          reply := Store(ExperienceYears, Years(num.value));
        }
      } else {
        reply := Store(key, Text(value));
      }
    }

    /**
      The questioning branch: ask for the tech stack again when it is falsy;
      otherwise take the model's questions, or the offline ones when the
      model gave nothing, show them numbered, and end the session.
    */
    method PoseQuestions(llm: Option<string>)
      modifies this
      ensures State() == AskQuestions(old(State()), llm, bank)
    {
      var techStack := Get(candidate, TechStack);
      if techStack.None? || !IsTruthy(techStack.value) {
        messages := messages + [Message(Assistant, AskTechStack)];
      } else {
        var reply: string;
        if llm.None? {
          questions := GenerateQuestionsOffline(TextOf(techStack.value), bank);
          reply := OfflineHeader + NumberedList(questions);
        } else {
          questions := LlmQuestions(llm.value);
          reply := LlmHeader + NumberedList(questions);
        }
        messages := messages + [Message(Assistant, reply)];
        phase := Ended;
        messages := messages + [Message(Assistant, ScreeningClosing)];
      }
    }

    /** The input handler, for a non-empty input. */
    method HandleInput(input: string, llm: Option<string>)
      modifies this
      ensures State() == Handle(old(State()), input, llm, bank)
    {
      ghost var s := State();
      if IsEndCommand(input) {
        EndSession(input);
      } else {
        messages := messages + [Message(User, input)];
        ghost var s1 := State();
        assert s1 == s.(messages := s.messages + [Message(User, input)]);
        if phase == Greeting || phase == Collecting {
          CollectAnswer(Strip(input));
        }
        ghost var s2 := State();
        assert s2 == if s1.phase == Greeting || s1.phase == Collecting then Collect(s1, Strip(input)) else s1;
        if phase == Questioning {
          PoseQuestions(llm);
        }
      }
    }

    /**
      One run of the script with the chat input `input` (empty when nothing
      was typed) and the model's reply `llm` (`None` when there is none).
    */
    method Run(input: string, llm: Option<string>)
      modifies this
      ensures State() == Step(old(State()), input, llm, bank)
    {
      GreetIfNew();
      if input != "" {
        HandleInput(input, llm);
      }
    }
  }
}
