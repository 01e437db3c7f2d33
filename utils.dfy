/**
  utils.py: the email and phone validators, the pseudonymised record that is
  written at the end of a screening, and the offline question generator used
  when no language model answers.
*/
module Utils {
  import opened Wrappers
  import opened PyStr
  import opened Candidate

  // ---------------------------------------------------------------------------
  // validate_email

  /** The regex class `[\w\.-]`. */
  predicate IsEmailChar(c: char) { IsWordChar(c) || c == '.' || c == '-' }

  /** Every character of `s[lo..hi]` is in `[\w\.-]`. */
  predicate EmailCharsIn(s: string, lo: int, hi: int)
    requires 0 <= lo <= hi <= |s|
  {
    forall k :: lo <= k < hi ==> IsEmailChar(s[k])
  }

  /** Every character of `s[lo..]` is in `[a-zA-Z]`. */
  predicate LettersFrom(s: string, lo: int)
    requires 0 <= lo <= |s|
  {
    forall k :: lo <= k < |s| ==> IsLetter(s[k])
  }

  /**
    `s` matches `^[\w\.-]+@[\w\.-]+\.[a-zA-Z]{2,}$` with the `@` at index `i`
    and the `.` before the top-level segment at index `j`.
  */
  predicate EmailShapeAt(s: string, i: int, j: int) {
    && 0 < i && i + 1 < j && j + 3 <= |s|
    && s[i] == '@' && s[j] == '.'
    && EmailCharsIn(s, 0, i)
    && EmailCharsIn(s, i + 1, j)
    && LettersFrom(s, j + 1)
  }

  /** `s` has the shape `local@domain.tld`. */
  ghost predicate EmailShape(s: string) {
    exists i, j :: EmailShapeAt(s, i, j)
  }

  /**
    `validate_email`: the trimmed input has the shape `local@domain.tld`. In
    particular an input without `@` is refused, and an accepted one holds
    exactly one `@`.
  */
  function ValidateEmail(value: string): (ok: bool)
    ensures ok <==> EmailShape(Strip(value))
    ensures '@' !in value ==> !ok
    ensures ok ==> exists i :: 0 <= i < |Strip(value)| && Strip(value)[i] == '@' &&
                     forall k :: 0 <= k < |Strip(value)| && Strip(value)[k] == '@' ==> k == i
  {
    var s := Strip(value);
    var ok := EmailShapeAt(s, Find(s, '@'), RFind(s, '.'));
    EmailCheckComplete(s);
    if ok then
      AcceptedEmailHasOneAt(value);
      ok
    else ok
  }

  lemma AcceptedEmailHasOneAt(value: string)
    requires EmailShapeAt(Strip(value), Find(Strip(value), '@'), RFind(Strip(value), '.'))
    ensures '@' in value
    ensures exists i :: 0 <= i < |Strip(value)| && Strip(value)[i] == '@' &&
                        forall k :: 0 <= k < |Strip(value)| && Strip(value)[k] == '@' ==> k == i
  {
    var s := Strip(value);
    var i := Find(s, '@');
    EmailHasOneAt(s, i, RFind(s, '.'));
    StripIsInfix(value, i);
  }

  /** A string of that shape is recognised by its first `@` and its last `.`. */
  lemma EmailCheckComplete(s: string)
    ensures EmailShape(s) <==> EmailShapeAt(s, Find(s, '@'), RFind(s, '.'))
  {
    if EmailShape(s) {
      var i, j :| EmailShapeAt(s, i, j);
      assert s[i] == '@' && !IsEmailChar('@');
      assert Find(s, '@') == i;
      assert s[j] == '.' && !IsLetter('.');
      assert RFind(s, '.') == j;
    }
  }

  /** `@` is in neither `[\w\.-]` nor `[a-zA-Z]`, so a matched string holds it once. */
  lemma EmailHasOneAt(s: string, i: int, j: int)
    requires EmailShapeAt(s, i, j)
    ensures forall k :: 0 <= k < |s| && s[k] == '@' ==> k == i
  {
    assert !IsEmailChar('@') && !IsLetter('@');
  }

  lemma StripIsInfix(value: string, k: int)
    requires 0 <= k < |Strip(value)|
    ensures Strip(value)[k] in value
  {
    var r := StripChars(value, Whitespace);
    var i, j :| StrippedAt(value, Whitespace, i, j) && r == value[i..j];
    assert r[k] == value[i + k];
  }

  // ---------------------------------------------------------------------------
  // validate_phone

  /** `re.sub(r"\D", "", s)`: the digits of `s`, in order. */
  function Digits(s: string): string {
    if s == [] then []
    else Digits(s[..|s| - 1]) + (if IsDigit(s[|s| - 1]) then [s[|s| - 1]] else [])
  }

  /** The positions of `s` that hold a digit. */
  ghost function DigitPositions(s: string): set<nat> {
    set k: nat | k < |s| && IsDigit(s[k])
  }

  /**
    `validate_phone`: at least seven of the input's characters are digits,
    wherever they stand among the separators.
  */
  function ValidatePhone(value: string): (ok: bool)
    ensures ok <==> |DigitPositions(value)| >= 7
  {
    DigitsCount(value);
    |Digits(value)| >= 7
  }

  lemma {:induction false} DigitsCount(s: string)
    ensures |Digits(s)| == |DigitPositions(s)|
  {
    if s != [] {
      var s' := s[..|s| - 1];
      DigitsCount(s');
      if IsDigit(s[|s| - 1]) {
        assert DigitPositions(s) == DigitPositions(s') + {|s| - 1};
      } else {
        assert DigitPositions(s) == DigitPositions(s');
      }
    }
  }

  lemma {:induction false} DigitsAppend(a: string, b: string)
    ensures Digits(a + b) == Digits(a) + Digits(b)
  {
    if b != [] {
      var b' := b[..|b| - 1];
      assert (a + b)[..|a + b| - 1] == a + b';
      DigitsAppend(a, b');
    } else {
      assert a + b == a;
    }
  }

  /** A non-digit character inserted anywhere never changes the phone verdict. */
  lemma PhoneIgnoresSeparator(a: string, c: char, b: string)
    requires !IsDigit(c)
    ensures ValidatePhone(a + [c] + b) == ValidatePhone(a + b)
  {
    DigitsAppend(a + [c], b);
    DigitsAppend(a, [c]);
    DigitsAppend(a, b);
    assert Digits([c]) == Digits([]) + [];
    DigitsCount(a + [c] + b);
    DigitsCount(a + b);
  }

  // ---------------------------------------------------------------------------
  // hash_identifier and save_candidate_record

  /**
    `hash_identifier`: the digest of the salt followed by the trimmed value.
    The digest itself (SHA-256 rendered in hexadecimal) is a parameter.
  */
  function HashIdentifier(digest: string -> string, salt: string, value: string): string {
    digest(salt + Strip(value))
  }

  const PrivacyNote: string := "Identifiers salted-hash only; no plaintext PII persisted."

  /** The record `save_candidate_record` appends to the log; it has no plain email or phone field. */
  datatype Record = Record(
    idEmail: Option<string>,
    idPhone: Option<string>,
    fullName: Option<Value>,
    experienceYears: Option<Value>,
    desiredPositions: Option<Value>,
    location: Option<Value>,
    techStack: Option<Value>,
    questions: seq<string>,
    ts: int,
    privacy: string)

  function TextOf(v: Value): string {
    match v
    case Text(t) => t
    case Years(n) => n
  }

  /** The pseudonymous identifier of a field: a digest when the field is truthy, otherwise none. */
  function IdentifierOf(c: map<Field, Value>, f: Field, digest: string -> string, salt: string): (id: Option<string>)
    ensures id.Some? <==> Filled(c, f)
    ensures id.Some? ==> id.value == digest(salt + Strip(TextOf(c[f])))
  {
    if Filled(c, f) then Some(HashIdentifier(digest, salt, TextOf(c[f]))) else None
  }

  /**
    What a record holds in plain form for a field. The email and the phone
    have no plain slot: a record carries them only as identifiers.
  */
  function PlainOf(r: Record, f: Field): Option<Value> {
    match f
    case FullName => r.fullName
    case Email => None
    case Phone => None
    case ExperienceYears => r.experienceYears
    case DesiredPositions => r.desiredPositions
    case Location => r.location
    case TechStack => r.techStack
  }

  /**
    The record built by `save_candidate_record` at clock reading `ts`: every
    answer except the email and the phone as stored, and those two only
    through their identifiers.
  */
  function BuildRecord(c: map<Field, Value>, questions: seq<string>, digest: string -> string, salt: string, ts: int): (r: Record)
    ensures forall f :: f != Email && f != Phone ==> PlainOf(r, f) == Get(c, f)
    ensures r.idEmail == IdentifierOf(c, Email, digest, salt) && r.idPhone == IdentifierOf(c, Phone, digest, salt)
    ensures r.questions == questions && r.ts == ts && r.privacy == PrivacyNote
  {
    Record(
      IdentifierOf(c, Email, digest, salt),
      IdentifierOf(c, Phone, digest, salt),
      Get(c, FullName),
      Get(c, ExperienceYears),
      Get(c, DesiredPositions),
      Get(c, Location),
      Get(c, TechStack),
      questions,
      ts,
      PrivacyNote)
  }

  /**
    The record depends on the email and phone only through their digests:
    two profiles that differ only in contact details whose salted digests
    agree yield the same record.
  */
  lemma RecordOnlyThroughDigests(c1: map<Field, Value>, c2: map<Field, Value>, questions: seq<string>,
                                 digest: string -> string, salt: string, ts: int)
    requires forall f :: f != Email && f != Phone ==> Get(c1, f) == Get(c2, f)
    requires IdentifierOf(c1, Email, digest, salt) == IdentifierOf(c2, Email, digest, salt)
    requires IdentifierOf(c1, Phone, digest, salt) == IdentifierOf(c2, Phone, digest, salt)
    ensures BuildRecord(c1, questions, digest, salt, ts) == BuildRecord(c2, questions, digest, salt, ts)
  {
    assert Get(c1, FullName) == Get(c2, FullName);
    assert Get(c1, ExperienceYears) == Get(c2, ExperienceYears);
    assert Get(c1, DesiredPositions) == Get(c2, DesiredPositions);
    assert Get(c1, Location) == Get(c2, Location);
    assert Get(c1, TechStack) == Get(c2, TechStack);
  }

  /**
    With a digest free of collisions, two truthy answers to the same field get
    the same identifier exactly when they agree once trimmed: identifiers link
    the records of one candidate without revealing the answer.
  */
  lemma IdentifierLinks(c1: map<Field, Value>, c2: map<Field, Value>, f: Field, digest: string -> string, salt: string)
    requires forall a, b :: digest(a) == digest(b) ==> a == b
    requires Filled(c1, f) && Filled(c2, f)
    ensures IdentifierOf(c1, f, digest, salt) == IdentifierOf(c2, f, digest, salt)
            <==> Strip(TextOf(c1[f])) == Strip(TextOf(c2[f]))
  {
    var x, y := Strip(TextOf(c1[f])), Strip(TextOf(c2[f]));
    if IdentifierOf(c1, f, digest, salt) == IdentifierOf(c2, f, digest, salt) {
      assert digest(salt + x) == digest(salt + y);
      assert (salt + x)[|salt|..] == x && (salt + y)[|salt|..] == y;
    }
  }

  /** Surrounding whitespace in a contact detail does not change its identifier. */
  lemma HashIgnoresPadding(digest: string -> string, salt: string, p: string, v: string, q: string)
    requires AllIn(p, Whitespace) && AllIn(q, Whitespace)
    ensures HashIdentifier(digest, salt, p + v + q) == HashIdentifier(digest, salt, v)
  {
    StripCharsPadding(p, v, q, Whitespace);
  }

  // ---------------------------------------------------------------------------
  // generate_questions_offline

  /** One entry of the static question bank: a technology key and its questions. */
  datatype BankEntry = BankEntry(key: string, questions: seq<string>)

  /** The question bank, in insertion order. */
  const Bank: seq<BankEntry> := [
    BankEntry("python", [
      "Explain list vs tuple and when you'd use each in Python.",
      "How do generators differ from list comprehensions? Provide a use case.",
      "What is GIL and how does it affect multithreading?",
      "Write a Python snippet to merge two dictionaries."]),
    BankEntry("django", [
      "How do middleware and signals differ in Django? Provide an example use case.",
      "Explain Django ORM select_related vs prefetch_related with an example.",
      "How do you secure a Django REST API (auth, throttling, permissions)?"]),
    BankEntry("javascript", [
      "Explain event loop and microtask queue in JavaScript.",
      "When would you use closures? Provide a practical example.",
      "What is debouncing vs throttling and when to use each?"]),
    BankEntry("react", [
      "How do React hooks replace class lifecycle methods? Map useEffect/useMemo examples.",
      "Explain reconciliation and keys in lists; why do incorrect keys cause bugs?",
      "How would you implement infinite scroll efficiently in React?"]),
    BankEntry("node", [
      "What are streams in Node.js and how do they improve performance?",
      "Explain cluster module and when you'd use it.",
      "How do you handle backpressure when reading/writing large files?"]),
    BankEntry("sql", [
      "How do you detect and resolve N+1 query problems?",
      "Explain indexing strategy for a table with frequent writes and analytical reads.",
      "What is a window function? Give an example query."]),
    BankEntry("mongodb", [
      "How do you model many-to-many relationships in MongoDB?",
      "Explain aggregation pipeline stages for grouping and filtering efficiently.",
      "How do you design indexes for compound queries in MongoDB?"]),
    BankEntry("aws", [
      "Design a fault-tolerant web app using ALB, ASG, and RDS\U{2014}explain trade-offs.",
      "When do you pick SQS vs SNS? Provide a scenario.",
      "How do you secure secrets on AWS without hardcoding them?"]),
    BankEntry("docker", [
      "Explain multi-stage builds and why they matter for image size/security.",
      "How do you persist data in containers and avoid permission issues?",
      "What is the difference between ENTRYPOINT and CMD?"]),
    BankEntry("kubernetes", [
      "Explain Deployments vs StatefulSets; when to pick each?",
      "How would you implement blue/green or canary deployments on Kubernetes?",
      "What are liveness vs readiness probes and common pitfalls?"]),
    BankEntry("tensorflow", [
      "How do you prevent overfitting in a CNN trained on limited data?",
      "Explain tf.data pipelines and how to optimize input performance.",
      "When would you use tf.function and autograph?"]),
    BankEntry("pytorch", [
      "What is the role of autograd? Show how to freeze layers during fine-tuning.",
      "Contrast DataLoader num_workers, pin_memory and their impact.",
      "How do you implement gradient clipping and why?"])
  ]

  /** The generic questions returned when no bank key matches. */
  const GenericQuestions: seq<string> := [
    "Describe a challenging bug you fixed recently and how you diagnosed it.",
    "Explain how you design for scalability and observability in your services.",
    "Walk through your process for profiling and optimizing a slow endpoint."
  ]

  /** Python's slice `s[:n]`. */
  function Take<T>(s: seq<T>, n: nat): (r: seq<T>)
    ensures |r| <= n && |r| <= |s| && r == s[..|r|]
    ensures |s| <= n ==> r == s
    ensures |s| > 0 && n > 0 ==> |r| > 0
  {
    if |s| <= n then s else s[..n]
  }

  /** Every entry has at least two questions, so each hit contributes two. */
  predicate WellFormedBank(bank: seq<BankEntry>) {
    forall e :: e in bank ==> |e.questions| >= 2
  }

  lemma BankIsWellFormed()
    ensures WellFormedBank(Bank)
  {
  }

  /**
    The tokens of the tech stack: the comma-separated parts, trimmed and
    lower-cased, with empty parts dropped.
  */
  function Techs(techStack: string): seq<string> {
    Tokens(Split(techStack, ','))
  }

  function Tokens(parts: seq<string>): (r: seq<string>)
    ensures |r| <= |parts|
  {
    if parts == [] then [] else Token(parts[0]) + Tokens(parts[1..])
  }

  /** The token of one part: trimmed and lower-cased, none when blank. */
  function Token(part: string): (r: seq<string>)
    ensures |r| <= 1
  {
    if Strip(part) != "" then [Lower(Strip(part))] else []
  }

  /** One turn of the inner loop: add the entry's first two questions on a hit while fewer than five are chosen. */
  function Pick(t: string, e: BankEntry, chosen: seq<string>): seq<string> {
    if IsSubstring(e.key, t) && |chosen| < 5 then chosen + Take(e.questions, 2) else chosen
  }

  /** The inner loop over `entries` (a prefix of the bank) for token `t`. */
  function ScanBank(t: string, entries: seq<BankEntry>, chosen: seq<string>): seq<string> {
    if entries == [] then chosen
    else Pick(t, entries[|entries| - 1], ScanBank(t, entries[..|entries| - 1], chosen))
  }

  /** The outer loop over the tokens: the list `chosen` before the fallback. */
  function ScanTokens(techs: seq<string>, bank: seq<BankEntry>): seq<string> {
    if techs == [] then []
    else ScanBank(techs[|techs| - 1], bank, ScanTokens(techs[..|techs| - 1], bank))
  }

  /** The list `chosen` after the fallback. */
  function Chosen(techStack: string, bank: seq<BankEntry>): seq<string> {
    var c := ScanTokens(Techs(techStack), bank);
    if c == [] then GenericQuestions else c
  }

  /** The de-duplication loop: the first occurrence of each string, in order. */
  function Dedup<T(==)>(s: seq<T>): seq<T> {
    if s == [] then []
    else
      var d := Dedup(s[..|s| - 1]);
      if s[|s| - 1] in d then d else d + [s[|s| - 1]]
  }

  predicate NoDuplicates<T(==)>(s: seq<T>) {
    forall i, j :: 0 <= i < j < |s| ==> s[i] != s[j]
  }

  /** `generate_questions_offline`, as a function of the tech-stack text. */
  function OfflineQuestions(techStack: string, bank: seq<BankEntry>): (r: seq<string>)
    ensures 1 <= |r| <= 5
    ensures NoDuplicates(r)
  {
    var c := Chosen(techStack, bank);
    DedupSpec(c);
    Take(Dedup(c), 5)
  }

  /** The index of the first occurrence of `x` in `s`. */
  function FirstIndex<T(==)>(s: seq<T>, x: T): (i: nat)
    requires x in s
    ensures i < |s| && s[i] == x && x !in s[..i]
  {
    if s[0] == x then 0
    else
      var i := FirstIndex(s[1..], x);
      assert s[..i + 1] == [s[0]] + s[1..][..i];
      i + 1
  }

  lemma FirstIndexOfPrefix<T>(s: seq<T>, m: nat, x: T)
    requires m <= |s| && x in s[..m]
    ensures FirstIndex(s, x) == FirstIndex(s[..m], x)
  {
    var i, j := FirstIndex(s, x), FirstIndex(s[..m], x);
    assert s[..m][..j] == s[..j];
  }

  /**
    De-duplication keeps exactly the strings of its input, each once, in the
    order of their first occurrence.
  */
  lemma {:induction false} DedupSpec<T>(s: seq<T>)
    ensures NoDuplicates(Dedup(s))
    ensures forall x :: x in Dedup(s) <==> x in s
    ensures forall i, j :: 0 <= i < j < |Dedup(s)| ==> FirstIndex(s, Dedup(s)[i]) < FirstIndex(s, Dedup(s)[j])
  {
    if s != [] {
      var s' := s[..|s| - 1];
      var x := s[|s| - 1];
      var d := Dedup(s');
      DedupSpec(s');
      assert s == s' + [x];
      forall y | y in s' ensures FirstIndex(s, y) == FirstIndex(s', y) {
        FirstIndexOfPrefix(s, |s| - 1, y);
      }
      if x !in d {
        assert FirstIndex(s, x) == |s| - 1;
      }
    }
  }

  /** Some key of `bank` occurs in some token. */
  ghost predicate AnyHit(techs: seq<string>, bank: seq<BankEntry>) {
    exists t, e :: t in techs && e in bank && IsSubstring(e.key, t)
  }

  /** `q` is one of the first two questions of a key of `bank` that occurs in some token. */
  ghost predicate FromHit(q: string, techs: seq<string>, bank: seq<BankEntry>) {
    exists t, e :: t in techs && e in bank && IsSubstring(e.key, t) && q in Take(e.questions, 2)
  }

  lemma {:induction false} ScanBankGrows(t: string, entries: seq<BankEntry>, chosen: seq<string>)
    ensures |ScanBank(t, entries, chosen)| >= |chosen|
    ensures ScanBank(t, entries, chosen)[..|chosen|] == chosen
    ensures |chosen| <= 6 ==> |ScanBank(t, entries, chosen)| <= 6
  {
    if entries != [] {
      ScanBankGrows(t, entries[..|entries| - 1], chosen);
    }
  }

  /** A scan of the bank for one token adds questions only from keys found in that token. */
  lemma {:induction false} ScanBankProvenance(t: string, entries: seq<BankEntry>, chosen: seq<string>,
                                              techs: seq<string>, bank: seq<BankEntry>)
    requires t in techs && forall e :: e in entries ==> e in bank
    requires forall q :: q in chosen ==> FromHit(q, techs, bank)
    ensures forall q :: q in ScanBank(t, entries, chosen) ==> FromHit(q, techs, bank)
  {
    if entries != [] {
      var e := entries[|entries| - 1];
      ScanBankProvenance(t, entries[..|entries| - 1], chosen, techs, bank);
      forall q | q in Take(e.questions, 2) && IsSubstring(e.key, t) ensures FromHit(q, techs, bank) {
        assert t in techs && e in bank;
      }
    }
  }

  /** A scan of the bank for one token ends empty exactly when it starts empty and no key occurs in the token. */
  lemma {:induction false} ScanBankEmpty(t: string, entries: seq<BankEntry>, chosen: seq<string>)
    requires WellFormedBank(entries)
    ensures ScanBank(t, entries, chosen) == [] <==> chosen == [] && forall e :: e in entries ==> !IsSubstring(e.key, t)
  {
    if entries != [] {
      var e := entries[|entries| - 1];
      var before := entries[..|entries| - 1];
      assert entries == before + [e];
      ScanBankEmpty(t, before, chosen);
    }
  }

  /** The list chosen before the fallback never exceeds six questions. */
  lemma {:induction false} ScanTokensBound(techs: seq<string>, bank: seq<BankEntry>)
    ensures |ScanTokens(techs, bank)| <= 6
  {
    if techs != [] {
      ScanTokensBound(techs[..|techs| - 1], bank);
      ScanBankGrows(techs[|techs| - 1], bank, ScanTokens(techs[..|techs| - 1], bank));
    }
  }

  /** Every chosen question is one of the first two of a bank key found in a token. */
  lemma {:induction false} ScanTokensProvenance(techs: seq<string>, bank: seq<BankEntry>)
    ensures forall q :: q in ScanTokens(techs, bank) ==> FromHit(q, techs, bank)
  {
    if techs != [] {
      var front := techs[..|techs| - 1];
      ScanTokensProvenance(front, bank);
      forall q | q in ScanTokens(front, bank) ensures FromHit(q, techs, bank) {
        var t, e :| t in front && e in bank && IsSubstring(e.key, t) && q in Take(e.questions, 2);
        assert t in techs;
      }
      ScanBankProvenance(techs[|techs| - 1], bank, ScanTokens(front, bank), techs, bank);
    }
  }

  /** Nothing is chosen exactly when no bank key occurs in any token. */
  lemma {:induction false} ScanTokensEmpty(techs: seq<string>, bank: seq<BankEntry>)
    requires WellFormedBank(bank)
    ensures ScanTokens(techs, bank) == [] <==> !AnyHit(techs, bank)
  {
    if techs != [] {
      var front := techs[..|techs| - 1];
      var t := techs[|techs| - 1];
      ScanTokensEmpty(front, bank);
      ScanBankEmpty(t, bank, ScanTokens(front, bank));
      assert techs == front + [t];
      if AnyHit(techs, bank) {
        var t', e :| t' in techs && e in bank && IsSubstring(e.key, t');
        if t' != t { assert t' in front; assert AnyHit(front, bank); }
      }
      if AnyHit(front, bank) {
        var t', e :| t' in front && e in bank && IsSubstring(e.key, t');
        assert t' in techs;
      }
      if !AnyHit(techs, bank) {
        assert t in techs;
        forall e | e in bank ensures !IsSubstring(e.key, t) { }
      }
    }
  }

  lemma GenericQuestionsDistinct()
    ensures NoDuplicates(GenericQuestions)
  {
  }

  /**
    Fallback: when no bank key occurs in any token (in particular when there
    is no token at all), the answer is the three generic questions, in order.
  */
  lemma OfflineFallback(techStack: string, bank: seq<BankEntry>)
    requires WellFormedBank(bank) && !AnyHit(Techs(techStack), bank)
    ensures OfflineQuestions(techStack, bank) == GenericQuestions
  {
    ScanTokensEmpty(Techs(techStack), bank);
    GenericQuestionsDistinct();
    DedupOfDistinct(GenericQuestions);
  }

  lemma {:induction false} DedupOfDistinct<T>(s: seq<T>)
    requires NoDuplicates(s)
    ensures Dedup(s) == s
  {
    if s != [] {
      var s' := s[..|s| - 1];
      assert NoDuplicates(s');
      DedupOfDistinct(s');
      assert s[|s| - 1] !in s';
      assert s == s' + [s[|s| - 1]];
    }
  }

  /**
    When some bank key occurs in some token, every question returned is one of
    the first two questions of such a key.
  */
  lemma OfflineFromHits(techStack: string, bank: seq<BankEntry>)
    requires WellFormedBank(bank) && AnyHit(Techs(techStack), bank)
    ensures forall q :: q in OfflineQuestions(techStack, bank) ==> FromHit(q, Techs(techStack), bank)
  {
    var techs := Techs(techStack);
    ScanTokensEmpty(techs, bank);
    ScanTokensProvenance(techs, bank);
    DedupSpec(ScanTokens(techs, bank));
  }

  /** The chosen list, before de-duplication and the cut to five, holds at most six questions. */
  lemma ChosenAtMostSix(techStack: string, bank: seq<BankEntry>)
    ensures |Chosen(techStack, bank)| <= 6
  {
    ScanTokensBound(Techs(techStack), bank);
  }

  /**
    The nested loops of `generate_questions_offline`: for each token, in
    order, scan the bank entries, in order, and on a hit add the entry's
    first two questions while fewer than five are chosen.
  */
  method CollectChosen(techs: seq<string>, bank: seq<BankEntry>) returns (chosen: seq<string>)
    ensures chosen == ScanTokens(techs, bank)
  {
    chosen := [];
    for i := 0 to |techs|
      invariant chosen == ScanTokens(techs[..i], bank)
    {
      var t := techs[i];
      ghost var before := chosen;
      for k := 0 to |bank|
        invariant chosen == ScanBank(t, bank[..k], before)
      {
        var entry := bank[k];
        if IsSubstring(entry.key, t) && |chosen| < 5 {
          chosen := chosen + Take(entry.questions, 2);
        }
        assert bank[..k + 1][..k] == bank[..k];
      }
      assert bank[..|bank|] == bank;
      assert techs[..i + 1][..i] == techs[..i];
    }
    assert techs[..|techs|] == techs;
  }

  /** The de-duplication loop of `generate_questions_offline`. */
  method DedupInOrder(chosen: seq<string>) returns (uniq: seq<string>)
    ensures uniq == Dedup(chosen)
  {
    uniq := [];
    for j := 0 to |chosen|
      invariant uniq == Dedup(chosen[..j])
    {
      if chosen[j] !in uniq {
        uniq := uniq + [chosen[j]];
      }
      assert chosen[..j + 1][..j] == chosen[..j];
    }
    assert chosen[..|chosen|] == chosen;
  }

  /** `generate_questions_offline`: scan, fall back, de-duplicate, keep five. */
  method GenerateQuestionsOffline(techStack: string, bank: seq<BankEntry>) returns (questions: seq<string>)
    ensures questions == OfflineQuestions(techStack, bank)
    ensures 1 <= |questions| <= 5 && NoDuplicates(questions)
  {
    var techs := Techs(techStack);
    var chosen := CollectChosen(techs, bank);
    if chosen == [] {
      chosen := GenericQuestions;
    }
    var uniq := DedupInOrder(chosen);
    questions := Take(uniq, 5);
  }

  // ---------------------------------------------------------------------------
  // token normalisation

  function LowerAll(parts: seq<string>): (r: seq<string>)
    ensures |r| == |parts| && forall k :: 0 <= k < |r| ==> r[k] == Lower(parts[k])
  {
    seq(|parts|, k requires 0 <= k < |parts| => Lower(parts[k]))
  }

  lemma {:induction false} SplitLower(s: string)
    ensures Split(Lower(s), ',') == LowerAll(Split(s, ','))
  {
    if s != [] {
      assert Lower(s)[1..] == Lower(s[1..]);
      SplitLower(s[1..]);
      var rest := Split(s[1..], ',');
      if s[0] != ',' {
        assert Lower([s[0]] + rest[0]) == [LowerChar(s[0])] + Lower(rest[0]);
      }
    }
  }

  lemma LowerCharKeepsSpace(c: char)
    ensures LowerChar(c) in Whitespace <==> c in Whitespace
  {
  }

  lemma StripLower(x: string)
    ensures Strip(Lower(x)) == Lower(Strip(x))
  {
    var y := Lower(x);
    forall k | 0 <= k < |x| ensures x[k] in Whitespace <==> y[k] in Whitespace {
      LowerCharKeepsSpace(x[k]);
    }
    var i, j := StripCharsSameShape(x, y, Whitespace);
    LowerSlice(x, i, j);
  }

  lemma TokenLower(x: string)
    ensures Token(Lower(x)) == Token(x)
  {
    StripLower(x);
    LowerTwice(Strip(x));
  }

  lemma {:induction false} TokensLower(parts: seq<string>)
    ensures Tokens(LowerAll(parts)) == Tokens(parts)
  {
    if parts != [] {
      TokenLower(parts[0]);
      assert LowerAll(parts)[1..] == LowerAll(parts[1..]);
      TokensLower(parts[1..]);
    }
  }


  /** The tokens, and so the questions, do not depend on the case of the tech stack. */
  lemma TechsIgnoreCase(techStack: string)
    ensures Techs(Lower(techStack)) == Techs(techStack)
  {
    SplitLower(techStack);
    TokensLower(Split(techStack, ','));
  }

  lemma OfflineIgnoresCase(techStack: string, bank: seq<BankEntry>)
    ensures OfflineQuestions(Lower(techStack), bank) == OfflineQuestions(techStack, bank)
  {
    TechsIgnoreCase(techStack);
  }

  lemma {:induction false} TokensAppend(x: seq<string>, y: seq<string>)
    ensures Tokens(x + y) == Tokens(x) + Tokens(y)
  {
    if x != [] {
      assert (x + y)[1..] == x[1..] + y;
      TokensAppend(x[1..], y);
    } else {
      assert x + y == y;
    }
  }

  /** The tokens of `a,b` are those of `a` followed by those of `b`. */
  lemma TechsAppend(a: string, b: string)
    requires ',' !in a
    ensures Techs(a + [','] + b) == Techs(a) + Techs(b)
  {
    SplitAppend(a, b, ',');
    TokensAppend(Split(a, ','), Split(b, ','));
  }

  /** Whitespace around a comma-free part does not change its token. */
  lemma TechsIgnorePadding(p: string, t: string, q: string)
    requires AllIn(p, Whitespace) && AllIn(q, Whitespace) && ',' !in t
    ensures Techs(p + t + q) == Techs(t)
  {
    assert ',' !in p + t + q;
    SplitNoSeparator(p + t + q, ',');
    SplitNoSeparator(t, ',');
    StripCharsPadding(p, t, q, Whitespace);
    assert [p + t + q][1..] == [] && [t][1..] == [];
  }

  // ---------------------------------------------------------------------------
  // worked cases

  /** A token none of whose scanned entries hits leaves `chosen` as it was. */
  lemma {:induction false} ScanBankNoHit(t: string, entries: seq<BankEntry>, chosen: seq<string>)
    requires forall j :: 0 <= j < |entries| ==> !IsSubstring(entries[j].key, t)
    ensures ScanBank(t, entries, chosen) == chosen
  {
    if entries != [] {
      ScanBankNoHit(t, entries[..|entries| - 1], chosen);
    }
  }

  /** A token hitting exactly one entry adds that entry's first two questions. */
  lemma {:induction false} ScanBankSingleHit(t: string, entries: seq<BankEntry>, k: int, chosen: seq<string>)
    requires 0 <= k < |entries| && |chosen| < 5 && IsSubstring(entries[k].key, t)
    requires forall j :: 0 <= j < |entries| && j != k ==> !IsSubstring(entries[j].key, t)
    ensures ScanBank(t, entries, chosen) == chosen + Take(entries[k].questions, 2)
  {
    var n := |entries| - 1;
    if k == n {
      ScanBankNoHit(t, entries[..n], chosen);
    } else {
      ScanBankSingleHit(t, entries[..n], k, chosen);
    }
  }

  /** A non-blank, comma-free, already trimmed part of a tech stack. */
  predicate IsWord(w: string) {
    w != "" && ',' !in w && IsStripped(w, Whitespace)
  }

  /** A word alone is one token, lower-cased. */
  lemma TechsOfWord(w: string)
    requires IsWord(w)
    ensures Techs(w) == [Lower(w)]
  {
    SplitNoSeparator(w, ',');
    StripCharsOfStripped(w, Whitespace);
    assert [w][1..] == [];
  }

  /** A word after a blank is still one token. */
  lemma TechsOfPaddedWord(w: string)
    requires IsWord(w)
    ensures Techs(" " + w) == [Lower(w)]
  {
    assert " " + w == " " + w + "";
    TechsIgnorePadding(" ", w, "");
    TechsOfWord(w);
  }

  /** The tokens of `a, rest`. */
  lemma TechsCons(a: string, rest: string)
    requires ',' !in a
    ensures Techs(a + ", " + rest) == Techs(a) + Techs(" " + rest)
  {
    RegroupSeparator(a, ',', ' ', rest);
    TechsAppend(a, " " + rest);
  }

  /** Two words separated by a comma and a blank give their two tokens. */
  lemma TechsOfTwo(a: string, b: string)
    requires IsWord(a) && IsWord(b)
    ensures Techs(a + ", " + b) == [Lower(a), Lower(b)]
  {
    TechsCons(a, b);
    TechsOfWord(a);
    TechsOfPaddedWord(b);
  }

  /** Two words after a blank, separated by a comma and a blank. */
  lemma TechsOfPaddedTwo(b: string, c: string)
    requires IsWord(b) && IsWord(c)
    ensures Techs(" " + (b + ", " + c)) == [Lower(b), Lower(c)]
  {
    RegroupLeading(' ', b, ", ", c);
    assert ',' !in " " + b;
    TechsCons(" " + b, c);
    TechsOfPaddedWord(b);
    TechsOfPaddedWord(c);
  }

  /** Three words separated by commas and blanks give their three tokens. */
  lemma TechsOfThree(a: string, b: string, c: string)
    requires IsWord(a) && IsWord(b) && IsWord(c)
    ensures Techs(a + ", " + (b + ", " + c)) == [Lower(a), Lower(b), Lower(c)]
  {
    TechsCons(a, b + ", " + c);
    TechsOfWord(a);
    TechsOfPaddedTwo(b, c);
  }

  /** The keys of the bank, in order. */
  predicate KeysAsInBank(bank: seq<BankEntry>) {
    && |bank| == 12
    && bank[0].key == "python" && bank[1].key == "django" && bank[2].key == "javascript"
    && bank[3].key == "react" && bank[4].key == "node" && bank[5].key == "sql"
    && bank[6].key == "mongodb" && bank[7].key == "aws" && bank[8].key == "docker"
    && bank[9].key == "kubernetes" && bank[10].key == "tensorflow" && bank[11].key == "pytorch"
  }

  lemma BankKeys()
    ensures KeysAsInBank(Bank)
  {
  }

  lemma PythonMissesLow(bank: seq<BankEntry>)
    requires KeysAsInBank(bank)
    ensures forall j :: 0 <= j <= 5 && j != 0 ==> !IsSubstring(bank[j].key, "python")
  {
    var t := "python";
    forall j | 0 <= j <= 5 && j != 0 ensures !IsSubstring(bank[j].key, t) {
      if j == 1 {
        MissingChar(bank[1].key, t, 0);
      } else if j == 2 {
        MissingChar(bank[2].key, t, 0);
      } else if j == 3 {
        MissingChar(bank[3].key, t, 0);
      } else if j == 4 {
        MissingChar(bank[4].key, t, 2);
      } else {
        MissingChar(bank[5].key, t, 0);
      }
    }
  }

  lemma PythonMissesHigh(bank: seq<BankEntry>)
    requires KeysAsInBank(bank)
    ensures forall j :: 6 <= j <= 11 ==> !IsSubstring(bank[j].key, "python")
  {
    var t := "python";
    forall j | 6 <= j <= 11 ensures !IsSubstring(bank[j].key, t) {
      if j == 6 {
        MissingChar(bank[6].key, t, 0);
      } else if j == 7 {
        MissingChar(bank[7].key, t, 0);
      } else if j == 8 {
        MissingChar(bank[8].key, t, 0);
      } else if j == 9 {
        MissingChar(bank[9].key, t, 0);
      } else if j == 10 {
        MissingChar(bank[10].key, t, 1);
      } else {
        MissingChar(bank[11].key, t, 4);
      }
    }
  }

  lemma ScanPython(bank: seq<BankEntry>, chosen: seq<string>)
    requires KeysAsInBank(bank) && |chosen| < 5
    ensures ScanBank("python", bank, chosen) == chosen + Take(bank[0].questions, 2)
  {
    PythonMissesLow(bank);
    PythonMissesHigh(bank);
    ScanBankSingleHit("python", bank, 0, chosen);
  }


  lemma DjangoMissesLow(bank: seq<BankEntry>)
    requires KeysAsInBank(bank)
    ensures forall j :: 0 <= j <= 5 && j != 1 ==> !IsSubstring(bank[j].key, "django")
  {
    var t := "django";
    forall j | 0 <= j <= 5 && j != 1 ensures !IsSubstring(bank[j].key, t) {
      if j == 0 {
        MissingChar(bank[0].key, t, 0);
      } else if j == 2 {
        MissingChar(bank[2].key, t, 2);
      } else if j == 3 {
        MissingChar(bank[3].key, t, 0);
      } else if j == 4 {
        MissingChar(bank[4].key, t, 3);
      } else {
        MissingChar(bank[5].key, t, 0);
      }
    }
  }

  lemma DjangoMissesHigh(bank: seq<BankEntry>)
    requires KeysAsInBank(bank)
    ensures forall j :: 6 <= j <= 11 ==> !IsSubstring(bank[j].key, "django")
  {
    var t := "django";
    forall j | 6 <= j <= 11 ensures !IsSubstring(bank[j].key, t) {
      if j == 6 {
        MissingChar(bank[6].key, t, 0);
      } else if j == 7 {
        MissingChar(bank[7].key, t, 1);
      } else if j == 8 {
        MissingChar(bank[8].key, t, 2);
      } else if j == 9 {
        MissingChar(bank[9].key, t, 0);
      } else if j == 10 {
        MissingChar(bank[10].key, t, 0);
      } else {
        MissingChar(bank[11].key, t, 0);
      }
    }
  }

  lemma ScanDjango(bank: seq<BankEntry>, chosen: seq<string>)
    requires KeysAsInBank(bank) && |chosen| < 5
    ensures ScanBank("django", bank, chosen) == chosen + Take(bank[1].questions, 2)
  {
    DjangoMissesLow(bank);
    DjangoMissesHigh(bank);
    ScanBankSingleHit("django", bank, 1, chosen);
  }


  lemma ReactMissesLow(bank: seq<BankEntry>)
    requires KeysAsInBank(bank)
    ensures forall j :: 0 <= j <= 5 && j != 3 ==> !IsSubstring(bank[j].key, "react")
  {
    var t := "react";
    forall j | 0 <= j <= 5 && j != 3 ensures !IsSubstring(bank[j].key, t) {
      if j == 0 {
        MissingChar(bank[0].key, t, 0);
      } else if j == 1 {
        MissingChar(bank[1].key, t, 0);
      } else if j == 2 {
        MissingChar(bank[2].key, t, 0);
      } else if j == 4 {
        MissingChar(bank[4].key, t, 0);
      } else {
        MissingChar(bank[5].key, t, 0);
      }
    }
  }

  lemma ReactMissesHigh(bank: seq<BankEntry>)
    requires KeysAsInBank(bank)
    ensures forall j :: 6 <= j <= 11 ==> !IsSubstring(bank[j].key, "react")
  {
    var t := "react";
    forall j | 6 <= j <= 11 ensures !IsSubstring(bank[j].key, t) {
      if j == 6 {
        MissingChar(bank[6].key, t, 0);
      } else if j == 7 {
        MissingChar(bank[7].key, t, 1);
      } else if j == 8 {
        MissingChar(bank[8].key, t, 0);
      } else if j == 9 {
        MissingChar(bank[9].key, t, 0);
      } else if j == 10 {
        MissingChar(bank[10].key, t, 2);
      } else {
        MissingChar(bank[11].key, t, 0);
      }
    }
  }

  lemma ScanReact(bank: seq<BankEntry>, chosen: seq<string>)
    requires KeysAsInBank(bank) && |chosen| < 5
    ensures ScanBank("react", bank, chosen) == chosen + Take(bank[3].questions, 2)
  {
    ReactMissesLow(bank);
    ReactMissesHigh(bank);
    ScanBankSingleHit("react", bank, 3, chosen);
  }


  lemma LowerWords()
    ensures Lower("Python") == "python" && Lower("Django") == "django"
    ensures Lower("React") == "react" && Lower("COBOL") == "cobol"
  {
  }

  lemma WordsAreWords()
    ensures IsWord("Python") && IsWord("Django") && IsWord("React") && IsWord("COBOL")
  {
  }

  lemma TechsPythonReact()
    ensures Techs("Python, React") == ["python", "react"]
  {
    WordsAreWords();
    assert "Python, React" == "Python" + ", " + "React";
    TechsOfTwo("Python", "React");
    LowerWords();
  }

  lemma TechsCobol()
    ensures Techs("COBOL") == ["cobol"]
  {
    WordsAreWords();
    TechsOfWord("COBOL");
    LowerWords();
  }

  lemma ChosenPythonReact(bank: seq<BankEntry>)
    requires KeysAsInBank(bank) && WellFormedBank(bank)
    ensures ScanTokens(["python", "react"], bank) ==
      [bank[0].questions[0], bank[0].questions[1], bank[3].questions[0], bank[3].questions[1]]
  {
    var py := Take(bank[0].questions, 2);
    ScanPython(bank, []);
    ScanReact(bank, py);
    assert [] + py == py;
    assert ["python", "react"][..1] == ["python"] && ["python"][..0] == [];
    assert ScanTokens(["python"], bank) == ScanBank("python", bank, []);
    assert bank[0] in bank && bank[3] in bank;
  }

  lemma ChosenOfPythonReact()
    ensures Chosen("Python, React", Bank) ==
      [Bank[0].questions[0], Bank[0].questions[1], Bank[3].questions[0], Bank[3].questions[1]]
  {
    TechsPythonReact();
    BankKeys();
    BankIsWellFormed();
    ChosenPythonReact(Bank);
  }

  /** With no repeats and at most five chosen, the chosen list is the answer. */
  lemma OfflineOfDistinct(techStack: string, bank: seq<BankEntry>)
    requires NoDuplicates(Chosen(techStack, bank)) && |Chosen(techStack, bank)| <= 5
    ensures OfflineQuestions(techStack, bank) == Chosen(techStack, bank)
  {
    DedupOfDistinct(Chosen(techStack, bank));
  }

  /** With no repeats, the answer is the first five chosen. */
  lemma OfflineOfDistinctCut(techStack: string, bank: seq<BankEntry>)
    requires NoDuplicates(Chosen(techStack, bank)) && |Chosen(techStack, bank)| > 5
    ensures OfflineQuestions(techStack, bank) == Chosen(techStack, bank)[..5]
  {
    DedupOfDistinct(Chosen(techStack, bank));
  }

  lemma DistinctPythonReact()
    ensures NoDuplicates([Bank[0].questions[0], Bank[0].questions[1], Bank[3].questions[0], Bank[3].questions[1]])
  {
  }

  /** "Python, React": the first two Python questions, then the first two React ones. */
  lemma OfflinePythonReact()
    ensures OfflineQuestions("Python, React", Bank) ==
      [Bank[0].questions[0], Bank[0].questions[1], Bank[3].questions[0], Bank[3].questions[1]]
  {
    ChosenOfPythonReact();
    DistinctPythonReact();
    OfflineOfDistinct("Python, React", Bank);
  }

  lemma TechsPythonDjangoReact()
    ensures Techs("Python, Django, React") == ["python", "django", "react"]
  {
    WordsAreWords();
    assert "Python, Django, React" == "Python" + ", " + ("Django" + ", " + "React");
    TechsOfThree("Python", "Django", "React");
    LowerWords();
  }

  lemma ChosenPythonDjangoReact(bank: seq<BankEntry>)
    requires KeysAsInBank(bank) && WellFormedBank(bank)
    ensures ScanTokens(["python", "django", "react"], bank) ==
      [bank[0].questions[0], bank[0].questions[1], bank[1].questions[0], bank[1].questions[1],
       bank[3].questions[0], bank[3].questions[1]]
  {
    var py := Take(bank[0].questions, 2);
    var dj := Take(bank[1].questions, 2);
    var re := Take(bank[3].questions, 2);
    ScanPython(bank, []);
    ScanDjango(bank, py);
    ScanReact(bank, py + dj);
    assert [] + py == py;
    assert ["python", "django", "react"][..2] == ["python", "django"];
    assert ["python", "django"][..1] == ["python"] && ["python"][..0] == [];
    assert ScanTokens(["python"], bank) == ScanBank("python", bank, []);
    assert ScanTokens(["python", "django"], bank) == ScanBank("django", bank, py);
    assert bank[0] in bank && bank[1] in bank && bank[3] in bank;
    ThreePairs(bank[0].questions[0], bank[0].questions[1], bank[1].questions[0], bank[1].questions[1],
               bank[3].questions[0], bank[3].questions[1]);
  }

  lemma ThreePairs<T>(a: T, b: T, c: T, d: T, e: T, f: T)
    ensures [a, b] + [c, d] + [e, f] == [a, b, c, d, e, f]
  {
  }

  lemma ChosenOfPythonDjangoReact()
    ensures Chosen("Python, Django, React", Bank) ==
      [Bank[0].questions[0], Bank[0].questions[1], Bank[1].questions[0], Bank[1].questions[1],
       Bank[3].questions[0], Bank[3].questions[1]]
  {
    TechsPythonDjangoReact();
    BankKeys();
    BankIsWellFormed();
    ChosenPythonDjangoReact(Bank);
  }

  lemma DistinctPythonDjangoReact()
    ensures NoDuplicates([Bank[0].questions[0], Bank[0].questions[1], Bank[1].questions[0], Bank[1].questions[1],
                          Bank[3].questions[0], Bank[3].questions[1]])
  {
  }

  /**
    "Python, Django, React": four questions are chosen before React is
    scanned, so React still adds two and `chosen` holds six, all different.
  */
  lemma ChosenReachesSix()
    ensures |Chosen("Python, Django, React", Bank)| == 6
    ensures NoDuplicates(Chosen("Python, Django, React", Bank))
  {
    ChosenOfPythonDjangoReact();
    DistinctPythonDjangoReact();
  }

  /** "Python, Django, React": the answer is the first five of the six chosen. */
  lemma OfflinePythonDjangoReact()
    ensures |Chosen("Python, Django, React", Bank)| == 6
    ensures OfflineQuestions("Python, Django, React", Bank) == Chosen("Python, Django, React", Bank)[..5]
  {
    ChosenReachesSix();
    OfflineOfDistinctCut("Python, Django, React", Bank);
  }

  lemma ScanCobol(bank: seq<BankEntry>)
    requires KeysAsInBank(bank)
    ensures ScanTokens(["cobol"], bank) == []
  {
    forall j | 0 <= j < |bank| ensures !IsSubstring(bank[j].key, "cobol") {
      MissingChar(bank[j].key, "cobol", 0);
    }
    ScanBankNoHit("cobol", bank, []);
    assert ["cobol"][..0] == [];
  }

  /** "COBOL" matches no key, so the generic questions are returned. */
  lemma OfflineCobol()
    ensures OfflineQuestions("COBOL", Bank) == GenericQuestions
  {
    TechsCobol();
    BankKeys();
    ScanCobol(Bank);
    GenericQuestionsDistinct();
    DedupOfDistinct(GenericQuestions);
  }
}
