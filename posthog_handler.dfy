/** The PosthogHandler log sink of the OpenBB SDK, as its tests fix it:
    turning a log line into a one-entry payload mapping (log_to_dict),
    the nine session fields attached to every event (extract_log_extra),
    and the emit step that hands a record to send and reports, rather
    than raises, any failure of send (emit / send / handleError). */
module Posthog {
  import opened Wrappers

  // ---------------------------------------------------------------------
  // Records and settings
  // ---------------------------------------------------------------------

  /** The fields of a host log record that the tests construct. */
  datatype LogRecord = LogRecord(name: string, level: int, pathname: string, lineno: int, msg: string)

  /** The logging settings handed to the handler at construction; read only afterwards. */
  datatype LoggingSettings = LoggingSettings(
    appName: string,
    userLogsDirectory: string,
    sessionId: string,
    frequency: string,
    appId: string,
    commitHash: string,
    platform: string,
    pythonVersion: string,
    terminalVersion: string,
    branch: string,
    userId: string)

  // ---------------------------------------------------------------------
  // log_to_dict: a labelled or bare JSON log line becomes a one-entry map
  // ---------------------------------------------------------------------

  /** The text between a label and its JSON body. */
  const SEPARATOR: string := ": "
  /** The key under which a log line without a label is filed. */
  const DEFAULT_LABEL: string := "SDK"

  /** ASCII letters, digits and underscore: the characters a label is made of. */
  predicate IsWordChar(c: char) {
    ('a' <= c <= 'z') || ('A' <= c <= 'Z') || ('0' <= c <= '9') || c == '_'
  }

  /** A label such as STARTUP or CMD: a non-empty word. */
  predicate IsLabel(l: string) {
    |l| > 0 && forall i :: 0 <= i < |l| ==> IsWordChar(l[i])
  }

  /** m is the line "l: b" with the label l. */
  predicate Labelled(m: string, l: string, b: string) {
    IsLabel(l) && m == l + SEPARATOR + b
  }

  /** The length of the longest prefix of m made of word characters. */
  function WordPrefixLength(m: string): (k: nat)
    ensures k <= |m|
    ensures forall i :: 0 <= i < k ==> IsWordChar(m[i])
    ensures k < |m| ==> !IsWordChar(m[k])
  {
    if |m| == 0 || !IsWordChar(m[0]) then 0 else 1 + WordPrefixLength(m[1..])
  }

  /** Splits "LABEL: body" into its label and body; None when m does not
      start with a label followed by the separator (a bare JSON line starts
      with '{', which no label contains). */
  function SplitLabel(m: string): (r: Option<(string, string)>)
    ensures r.Some? ==> Labelled(m, r.value.0, r.value.1)
    ensures r.Some? ==> forall i :: 0 <= i < |r.value.0| ==> m[i] != SEPARATOR[0]
    ensures (|m| == 0 || !IsWordChar(m[0])) ==> r.None?
  {
    var k := WordPrefixLength(m);
    if 0 < k && k + 2 <= |m| && m[k..k + 2] == SEPARATOR then
      assert m == m[..k] + SEPARATOR + m[k + 2..];
      Some((m[..k], m[k + 2..]))
    else
      None
  }

  /** Every "LABEL: body" is split back into exactly that label and body,
      so the label always ends at the first separator. */
  lemma SplitLabelComplete(l: string, b: string)
    requires IsLabel(l)
    ensures SplitLabel(l + SEPARATOR + b) == Some((l, b))
  {
    var m := l + SEPARATOR + b;
    var k := WordPrefixLength(m);
    assert forall i :: 0 <= i < |l| ==> m[i] == l[i];
    assert !IsWordChar(m[|l|]);
    assert k == |l|;
    assert m[..k] == l;
    assert m[k..k + 2] == SEPARATOR;
    assert m[k + 2..] == b;
  }

  /** Why a log line could not be turned into a payload: its JSON text did not decode. */
  datatype LogError = MalformedJson(text: string)

  /** The one-entry mapping of key to the decoding of text. */
  function Entry<J>(key: string, text: string, decoded: Option<J>): (r: Result<map<string, J>, LogError>)
  {
    match decoded
    case Some(j) => Success(map[key := j])
    case None => Failure(MalformedJson(text))
  }

  /** log_to_dict: "LABEL: json" gives {LABEL: decode(json)}; any other line
      is decoded whole and filed under "SDK". */
  function LogToDict<J>(decode: string -> Option<J>, message: string): (r: Result<map<string, J>, LogError>)
    ensures r.Success? ==> |r.value| == 1
    ensures r.Success? ==> forall key :: key in r.value ==> key == DEFAULT_LABEL || exists b :: Labelled(message, key, b)
    ensures r.Failure? ==> decode(r.error.text).None?
    ensures r.Failure? ==> |r.error.text| <= |message| && message[|message| - |r.error.text|..] == r.error.text
  {
    match SplitLabel(message)
    case Some(parts) => Entry(parts.0, parts.1, decode(parts.1))
    case None => Entry(DEFAULT_LABEL, message, decode(message))
  }

  /** A labelled line is filed under its label, and decode sees exactly the text after the separator. */
  lemma LogToDictLabelled<J>(decode: string -> Option<J>, l: string, b: string)
    requires IsLabel(l)
    ensures LogToDict(decode, l + SEPARATOR + b) == Entry(l, b, decode(b))
  {
    SplitLabelComplete(l, b);
  }

  /** A line that is not "LABEL: body" for any label and body (bare JSON,
      plain text, the empty line) is filed under "SDK", and decode sees the
      whole line. With LogToDictLabelled this fixes the key of every line. */
  lemma LogToDictBare<J>(decode: string -> Option<J>, m: string)
    requires forall l, b :: !Labelled(m, l, b)
    ensures LogToDict(decode, m) == Entry(DEFAULT_LABEL, m, decode(m))
  {
  }

  /** A line starting with anything but a word character, such as '{', is
      not of the form "LABEL: body". */
  lemma NonWordStartIsBare(m: string)
    requires |m| > 0 && !IsWordChar(m[0])
    ensures forall l, b :: !Labelled(m, l, b)
  {
    forall l, b | IsLabel(l) ensures m != l + SEPARATOR + b {
      assert (l + SEPARATOR + b)[0] == l[0];
    }
  }

  /** The JSON body of the STARTUP line under test. */
  const STARTUP_BODY: string := "{\"status\": \"success\"}"
  /** The bare JSON line under test, written in two pieces so that its first character is evident. */
  const INPUT_LINE: string := "{\"INPUT\": " + "{\"something_something\":\"something_something\"}}"
  /** The JSON body of the CMD line under test. */
  const CMD_BODY: string := "{\"path\": \"/stocks/\", \"known_cmd\": \"load\", \"other_args\": \"aapl\", \"input\": \"load aapl\"}"

  /** The first tested line, STARTUP: {"status": "success"}, is filed under
      STARTUP with its one-field body decoded. */
  lemma LogToDictStartup<J>(decode: string -> Option<J>)
    ensures LogToDict(decode, "STARTUP" + SEPARATOR + STARTUP_BODY) == Entry("STARTUP", STARTUP_BODY, decode(STARTUP_BODY))
  {
    assert IsLabel("STARTUP");
    LogToDictLabelled(decode, "STARTUP", STARTUP_BODY);
  }

  /** The second tested line: bare JSON that itself contains the separator
      (after {"INPUT") is still wrapped, whole, under "SDK". */
  lemma LogToDictInput<J>(decode: string -> Option<J>)
    ensures LogToDict(decode, INPUT_LINE) == Entry("SDK", INPUT_LINE, decode(INPUT_LINE))
  {
    assert INPUT_LINE[0] == '{';
    NonWordStartIsBare(INPUT_LINE);
    LogToDictBare(decode, INPUT_LINE);
  }

  /** A bare JSON line made of word characters only, such as null, has no
      separator and so is filed whole under "SDK" too. */
  lemma LogToDictNull<J>(decode: string -> Option<J>)
    ensures LogToDict(decode, "null") == Entry("SDK", "null", decode("null"))
  {
    forall l, b | IsLabel(l) ensures "null" != l + SEPARATOR + b {
      var m := l + SEPARATOR + b;
      assert m[|l|] == ':';
      assert forall i :: 0 <= i < |"null"| ==> "null"[i] != ':';
    }
    LogToDictBare(decode, "null");
  }

  /** The third tested line: CMD with a four-field body; that whole body, and
      so every field in it, reaches decode unchanged. */
  lemma LogToDictCmd<J>(decode: string -> Option<J>)
    ensures LogToDict(decode, "CMD" + SEPARATOR + CMD_BODY) == Entry("CMD", CMD_BODY, decode(CMD_BODY))
  {
    assert IsLabel("CMD");
    LogToDictLabelled(decode, "CMD", CMD_BODY);
  }

  // ---------------------------------------------------------------------
  // extract_log_extra: the session fields attached to every event
  // ---------------------------------------------------------------------

  /** The nine keys of the extra mapping. */
  const EXTRA_KEYS: set<string> := {"appName", "appId", "sessionId", "commitHash", "platform",
                                    "pythonVersion", "terminalVersion", "branch", "userId"}

  /** extract_log_extra: the session settings renamed to camelCase; the record is not consulted. */
  function ExtractLogExtra(settings: LoggingSettings, record: LogRecord): (extra: map<string, string>)
    ensures extra.Keys == EXTRA_KEYS
  {
    map["appName" := settings.appName,
        "appId" := settings.appId,
        "sessionId" := settings.sessionId,
        "commitHash" := settings.commitHash,
        "platform" := settings.platform,
        "pythonVersion" := settings.pythonVersion,
        "terminalVersion" := settings.terminalVersion,
        "branch" := settings.branch,
        "userId" := settings.userId]
  }

  /** Two settings agree on every field that extract_log_extra reports. */
  predicate SameSession(s: LoggingSettings, t: LoggingSettings) {
    && s.appName == t.appName && s.appId == t.appId && s.sessionId == t.sessionId
    && s.commitHash == t.commitHash && s.platform == t.platform && s.pythonVersion == t.pythonVersion
    && s.terminalVersion == t.terminalVersion && s.branch == t.branch && s.userId == t.userId
  }

  /** Each key maps to its own settings field. */
  lemma ExtractLogExtraFields(settings: LoggingSettings, record: LogRecord)
    ensures var extra := ExtractLogExtra(settings, record);
      && extra["appName"] == settings.appName && extra["appId"] == settings.appId
      && extra["sessionId"] == settings.sessionId && extra["commitHash"] == settings.commitHash
      && extra["platform"] == settings.platform && extra["pythonVersion"] == settings.pythonVersion
      && extra["terminalVersion"] == settings.terminalVersion && extra["branch"] == settings.branch
      && extra["userId"] == settings.userId
  {
  }

  /** The extra mapping is determined by, and determines, the nine session
      fields: the record, the log directory and the frequency play no part. */
  lemma ExtractLogExtraExactly(s: LoggingSettings, r: LogRecord, t: LoggingSettings, q: LogRecord)
    ensures ExtractLogExtra(s, r) == ExtractLogExtra(t, q) <==> SameSession(s, t)
  {
    if ExtractLogExtra(s, r) == ExtractLogExtra(t, q) {
      ExtractLogExtraFields(s, r);
      ExtractLogExtraFields(t, q);
    }
  }

  /** The settings of the test fixture. */
  const TEST_SETTINGS := LoggingSettings("TestApp", "/mocked/logs/directory", "session123", "H", "test123",
                                         "commit123", "Windows", "3.9", "1.2.3", "main", "user123")

  /** The tested record and fixture give the expected nine-entry mapping. */
  lemma ExtractLogExtraFixture()
    ensures ExtractLogExtra(TEST_SETTINGS, LogRecord("name", 20, "pathname", 42, "message"))
         == map["appName" := "TestApp", "appId" := "test123", "sessionId" := "session123",
                "commitHash" := "commit123", "platform" := "Windows", "pythonVersion" := "3.9",
                "terminalVersion" := "1.2.3", "branch" := "main", "userId" := "user123"]
  {
  }

  // ---------------------------------------------------------------------
  // emit: call send once, turn any failure into one handleError call
  // ---------------------------------------------------------------------

  /** The exception classes the tests make send raise (Exception, ValueError,
      TypeError), and any other: catching every class is this model's choice. */
  datatype ErrorKind = Exception | ValueError | TypeError | OtherError(name: string)

  /** What one call of the transport did: returned, or raised an error of some kind. */
  datatype SendOutcome = Sent | Raised(kind: ErrorKind)

  /** The records, in order, whose send raised. */
  function FailedRecords(records: seq<LogRecord>, outcomes: seq<SendOutcome>): (failed: seq<LogRecord>)
    requires |records| == |outcomes|
    ensures |failed| <= |records|
    ensures forall x :: x in failed ==> x in records
    ensures (forall i :: 0 <= i < |outcomes| ==> outcomes[i].Sent?) ==> failed == []
  {
    if |records| == 0 then []
    else (if outcomes[0].Raised? then [records[0]] else []) + FailedRecords(records[1..], outcomes[1..])
  }

  /** One more send adds its record to the failed ones exactly when it raised. */
  lemma {:induction false} FailedRecordsAppend(records: seq<LogRecord>, outcomes: seq<SendOutcome>,
                                               record: LogRecord, outcome: SendOutcome)
    requires |records| == |outcomes|
    ensures FailedRecords(records + [record], outcomes + [outcome])
         == FailedRecords(records, outcomes) + (if outcome.Raised? then [record] else [])
  {
    if |records| == 0 {
      assert records + [record] == [record];
      assert outcomes + [outcome] == [outcome];
    } else {
      assert (records + [record])[1..] == records[1..] + [record];
      assert (outcomes + [outcome])[1..] == outcomes[1..] + [outcome];
      FailedRecordsAppend(records[1..], outcomes[1..], record, outcome);
    }
  }

  /** The handler: fixed settings, a replaceable transport, and ghost logs of
      the calls made to send and to handleError. The tests replace send itself
      with a mock; the model splits that mock into the recorded call (the send
      logs) and its outcome (transport). */
  class PosthogHandler {
    const settings: LoggingSettings
    /** The outcome of a send call: returns (Sent) or raises (Raised). */
    var transport: LogRecord -> SendOutcome
    ghost var sendCalls: seq<LogRecord>
    ghost var sendOutcomes: seq<SendOutcome>
    ghost var handleErrorCalls: seq<LogRecord>

    /** Every send call has its recorded outcome; every method keeps this. */
    ghost predicate Valid()
      reads this
    {
      |sendCalls| == |sendOutcomes|
    }

    /** handleError has been called once for each send that raised, in order, and for nothing else. */
    ghost predicate Reported()
      reads this
    {
      Valid() && handleErrorCalls == FailedRecords(sendCalls, sendOutcomes)
    }

    constructor (settings: LoggingSettings, transport: LogRecord -> SendOutcome)
      ensures Valid() && Reported()
      ensures this.settings == settings && this.transport == transport
      ensures sendCalls == [] && sendOutcomes == [] && handleErrorCalls == []
    {
      this.settings := settings;
      this.transport := transport;
      sendCalls, sendOutcomes, handleErrorCalls := [], [], [];
    }

    /** send(record=record): one call of the transport, recorded. */
    method Send(record: LogRecord) returns (outcome: SendOutcome)
      requires Valid()
      modifies this
      ensures Valid()
      ensures outcome == transport(record) && transport == old(transport)
      ensures sendCalls == old(sendCalls) + [record]
      ensures sendOutcomes == old(sendOutcomes) + [outcome]
      ensures handleErrorCalls == old(handleErrorCalls)
    {
      outcome := transport(record);
      sendCalls := sendCalls + [record];
      sendOutcomes := sendOutcomes + [outcome];
    }

    /** handleError(record): the host's error channel, recorded. */
    method HandleError(record: LogRecord)
      requires Valid()
      modifies this
      ensures Valid()
      ensures transport == old(transport)
      ensures sendCalls == old(sendCalls) && sendOutcomes == old(sendOutcomes)
      ensures handleErrorCalls == old(handleErrorCalls) + [record]
    {
      handleErrorCalls := handleErrorCalls + [record];
    }

    /** emit(record): send is called exactly once with the record; if it
        raised, of whatever kind, handleError is called exactly once with the
        same record; emit itself always returns normally. */
    method Emit(record: LogRecord)
      requires Valid()
      modifies this
      ensures Valid()
      ensures old(Reported()) ==> Reported()
      ensures transport == old(transport)
      ensures sendCalls == old(sendCalls) + [record]
      ensures sendOutcomes == old(sendOutcomes) + [old(transport)(record)]
      ensures handleErrorCalls == old(handleErrorCalls) + (if old(transport)(record).Raised? then [record] else [])
    {
      FailedRecordsAppend(sendCalls, sendOutcomes, record, transport(record));
      var outcome := Send(record);
      if outcome.Raised? {
        HandleError(record);
      }
    }
  }

  /** test_emit_calls_send: with a transport that returns, emit calls send
      once with the record and never calls handleError. */
  method EmitWithWorkingSend(record: LogRecord) returns (h: PosthogHandler)
    ensures h.sendCalls == [record] && h.handleErrorCalls == []
  {
    h := new PosthogHandler(TEST_SETTINGS, (r: LogRecord) => Sent);
    h.Emit(record);
  }

  /** The three handleError tests: whatever kind of error send raises, emit
      returns, send was called once and handleError once, both with the record. */
  method EmitWithRaisingSend(record: LogRecord, kind: ErrorKind) returns (h: PosthogHandler)
    ensures h.sendCalls == [record] && h.handleErrorCalls == [record]
  {
    h := new PosthogHandler(TEST_SETTINGS, (r: LogRecord) => Raised(kind));
    h.Emit(record);
  }
}
