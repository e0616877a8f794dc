/**
 * The policy document side of the procurement agent: the process-wide index built
 * from the last uploaded PDF and the "loaded" flag (main.py:63-65), the upload route
 * that replaces them (main.py:302-329), the policy query tool (main.py:242-253) and
 * the tool list the analysis route offers the agent (main.py:360-390).
 *
 * Building the index (PDF loading, splitting, embedding, vector search) is done by
 * libraries; here its outcome is an input: an index, `None` when the build failed, or an
 * exception raised out of it.
 */
module Policy {
  import opened Wrappers

  /** A retrieval index, known only by the document it was built from. */
  datatype Index = Index(document: string)

  /** ASCII lower-casing of one character. */
  function LowerChar(ch: char): char
  {
    if 'A' <= ch <= 'Z' then (ch as int + 32) as char else ch
  }

  /** `str.lower()`, on the characters that can matter to a ".pdf" suffix. */
  function Lower(s: string): (r: string)
    ensures |r| == |s|
  {
    seq(|s|, i requires 0 <= i < |s| => LowerChar(s[i]))
  }

  /** `filename.lower().endswith('.pdf')`: the suffix test ignores the case of its letters. */
  function IsPdfName(name: string): (r: bool)
    ensures r <==>
      && |name| >= 4
      && name[|name| - 4] == '.'
      && name[|name| - 3] in {'p', 'P'}
      && name[|name| - 2] in {'d', 'D'}
      && name[|name| - 1] in {'f', 'F'}
  {
    var lower, n := Lower(name), |name|;
    if n < 4 then false
    else
      assert lower[n - 4..] == [lower[n - 4], lower[n - 3], lower[n - 2], lower[n - 1]];
      lower[n - 4..] == ".pdf"
  }

  /** The multipart request: with or without a `file` part. */
  datatype UploadRequest = NoFilePart | FilePart(filename: string)

  /** The JSON answer of the upload route; `policyLoaded` is absent on the first two errors. */
  datatype UploadResponse = UploadResponse(success: bool, text: string, policyLoaded: Option<bool>)

  /**
   * What building the index comes to: an index; `None` after a build error it logged
   * and swallowed; or an exception raised out of it, which only the logging of that
   * error can raise (main.py:238-240).
   */
  datatype Build = Built(index: Index) | BuildFailed | BuildRaised(error: string)

  /** The value `create_pdf_qa_chain` returns when it returns. */
  function Chain(built: Build): (chain: Option<Index>)
    requires !built.BuildRaised?
    ensures chain.Some? <==> built.Built?
    ensures built.Built? ==> chain.value == built.index
  {
    if built.Built? then Some(built.index) else None
  }

  const NoFileUploaded: string := "No file uploaded"
  const NoFileSelected: string := "No file selected"
  const InvalidFormat: string := "Invalid file format"
  const LoadedMessage: string := "Policy document loaded successfully!"

  /** The upload is a PDF the route goes on to index (main.py:306-313). */
  predicate Accepted(request: UploadRequest)
  {
    request.FilePart? && request.filename != "" && IsPdfName(request.filename)
  }

  /** The tools the agent can call. */
  datatype Tool = ForexChecker | WeatherChecker | Calculator | PolicyChecker

  /** The tools `analyze` offers: the policy checker only while an index exists (main.py:365-390). */
  function OfferedTools(chain: Option<Index>): (tools: seq<Tool>)
    ensures |tools| >= 3 && tools[..3] == [ForexChecker, WeatherChecker, Calculator]
    ensures PolicyChecker in tools <==> chain.Some?
    ensures forall i, j :: 0 <= i < j < |tools| ==> tools[i] != tools[j]
  {
    var base := [ForexChecker, WeatherChecker, Calculator];
    if chain.Some? then base + [PolicyChecker] else base
  }

  /** How `analyze` starts: an error for an empty query, else an agent with its tools. */
  datatype Analysis = NoQuery | Agent(tools: seq<Tool>, policyStep: bool)

  /**
   * `analyze` up to the agent run (main.py:360-413): the prompt asks for a policy check
   * exactly when the policy tool is offered.
   */
  function StartAnalysis(query: string, chain: Option<Index>): (a: Analysis)
    ensures a == NoQuery <==> query == ""
    ensures a.Agent? ==> a.tools == OfferedTools(chain)
    ensures a.Agent? ==> (a.policyStep <==> PolicyChecker in a.tools)
  {
    if query == "" then NoQuery else Agent(OfferedTools(chain), chain.Some?)
  }

  /** What the policy tool answers. */
  datatype PolicyReply = NotLoaded | Answer(text: string) | QueryFailed(error: string)

  const NotLoadedMessage: string := "Policy document not loaded. Unable to verify compliance."

  /** The text the agent receives. */
  function ReplyText(reply: PolicyReply): string
  {
    match reply
    case NotLoaded => NotLoadedMessage
    case Answer(text) => text
    case QueryFailed(error) => "Policy query failed: " + error
  }

  /**
   * `query_policy` (main.py:242-253): without an index, the fixed "not loaded" reply;
   * otherwise whatever the index's chain answers for the question, or the failure it raised.
   */
  function QueryPolicy(question: string, chain: Option<Index>,
                       ask: (Index, string) -> Result<string, string>): (reply: PolicyReply)
    ensures reply == NotLoaded <==> chain == None
    ensures chain.Some? && ask(chain.value, question).Ok? ==> reply == Answer(ask(chain.value, question).value)
    ensures chain.Some? && ask(chain.value, question).Err? ==> reply == QueryFailed(ask(chain.value, question).error)
  {
    match chain
    case None => NotLoaded
    case Some(index) =>
      match ask(index, question)
      case Ok(text) => Answer(text)
      case Err(error) => QueryFailed(error)
  }

  /**
   * The text the agent receives from `query_policy` (main.py:246-253): the fixed
   * "not loaded" sentence without an index, the index's answer verbatim, or the raised
   * error after "Policy query failed: ".
   */
  lemma QueryPolicyText(question: string, chain: Option<Index>,
                        ask: (Index, string) -> Result<string, string>)
    ensures chain == None ==>
      ReplyText(QueryPolicy(question, chain, ask)) == "Policy document not loaded. Unable to verify compliance."
    ensures chain.Some? && ask(chain.value, question).Ok? ==>
      ReplyText(QueryPolicy(question, chain, ask)) == ask(chain.value, question).value
    ensures chain.Some? && ask(chain.value, question).Err? ==>
      ReplyText(QueryPolicy(question, chain, ask)) == "Policy query failed: " + ask(chain.value, question).error
  {
  }

  /** The agent can only reach the policy tool when it will not answer "not loaded". */
  lemma OfferedPolicyToolIsLoaded(query: string, question: string, chain: Option<Index>,
                                  ask: (Index, string) -> Result<string, string>)
    requires StartAnalysis(query, chain).Agent? && PolicyChecker in StartAnalysis(query, chain).tools
    ensures QueryPolicy(question, chain, ask) != NotLoaded
  {
  }

  /** The process-wide policy state: `qa_chain` and `policy_loaded`. */
  class PolicyStore {
    var qaChain: Option<Index>
    var policyLoaded: bool

    /** At start-up there is no index and nothing is loaded (main.py:64-65). */
    constructor ()
      ensures qaChain == None && !policyLoaded
    {
      qaChain := None;
      policyLoaded := false;
    }

    /**
     * `upload_pdf` (main.py:302-329). `built` is what building the index from the saved
     * file comes to: the build swallows its own errors and then returns `None`
     * (main.py:238-240), and the route still marks the policy as loaded; only when
     * logging that error itself raises (main.py:239) does the route's `except` run,
     * which clears the flag and keeps the previous index (main.py:323-327).
     */
    method UploadPdf(request: UploadRequest, built: Build) returns (response: UploadResponse)
      modifies this
      ensures Accepted(request) && !built.BuildRaised? ==> qaChain == Chain(built) && policyLoaded
      ensures Accepted(request) && built.BuildRaised? ==> qaChain == old(qaChain) && !policyLoaded
      ensures !Accepted(request) ==> qaChain == old(qaChain) && policyLoaded == old(policyLoaded)
      ensures response.success <==> Accepted(request) && !built.BuildRaised?
      ensures response == (
        if request.NoFilePart? then UploadResponse(false, NoFileUploaded, None)
        else if request.filename == "" then UploadResponse(false, NoFileSelected, None)
        else if IsPdfName(request.filename) then
          if built.BuildRaised? then UploadResponse(false, built.error, Some(false))
          else UploadResponse(true, LoadedMessage, Some(true))
        else UploadResponse(false, InvalidFormat, Some(false)))
    {
      if request.NoFilePart? {
        return UploadResponse(false, NoFileUploaded, None);
      }
      var filename := request.filename;
      if filename == "" {
        return UploadResponse(false, NoFileSelected, None);
      }
      if IsPdfName(filename) {
        if built.BuildRaised? {
          policyLoaded := false;
          return UploadResponse(false, built.error, Some(false));
        }
        qaChain := Chain(built);
        policyLoaded := true;
        return UploadResponse(true, LoadedMessage, Some(true));
      }
      return UploadResponse(false, InvalidFormat, Some(false));
    }
  }

  /**
   * Two accepted uploads in a row: the policy tool then answers from the second
   * index only, whatever the first one was.
   */
  method SecondUploadReplacesFirst(first: Index, second: Index, name1: string, name2: string,
                                   question: string, ask: (Index, string) -> Result<string, string>)
    returns (reply: PolicyReply)
    requires Accepted(FilePart(name1)) && Accepted(FilePart(name2))
    ensures reply == QueryPolicy(question, Some(second), ask)
    ensures reply != NotLoaded
  {
    var store := new PolicyStore();
    var _ := store.UploadPdf(FilePart(name1), Built(first));
    var _ := store.UploadPdf(FilePart(name2), Built(second));
    reply := QueryPolicy(question, store.qaChain, ask);
  }

  /**
   * An accepted upload whose build failed: the route reports success and the status
   * says loaded, yet no index exists and the agent is not offered the policy tool.
   */
  method FailedBuildStillLoaded(name: string, query: string) returns (loaded: bool, tools: seq<Tool>)
    requires Accepted(FilePart(name)) && query != ""
    ensures loaded
    ensures tools == [ForexChecker, WeatherChecker, Calculator]
  {
    var store := new PolicyStore();
    var response := store.UploadPdf(FilePart(name), BuildFailed);
    assert response.success;
    loaded := store.policyLoaded;
    var analysis := StartAnalysis(query, store.qaChain);
    tools := analysis.tools;
  }

  /**
   * A rejected upload after an accepted one keeps the earlier index and flag, so the
   * policy tool keeps answering from it.
   */
  method RejectedUploadKeepsIndex(index: Index, good: string, bad: UploadRequest,
                                  question: string, ask: (Index, string) -> Result<string, string>)
    returns (loaded: bool, reply: PolicyReply)
    requires Accepted(FilePart(good)) && !Accepted(bad)
    ensures loaded
    ensures reply == QueryPolicy(question, Some(index), ask)
  {
    var store := new PolicyStore();
    var _ := store.UploadPdf(FilePart(good), Built(index));
    var _ := store.UploadPdf(bad, BuildFailed);
    loaded := store.policyLoaded;
    reply := QueryPolicy(question, store.qaChain, ask);
  }

  /**
   * An accepted upload whose build raised, after an earlier accepted one: the route
   * reports failure and the status says not loaded, yet the earlier index stays and the
   * agent is still offered the policy tool, which answers from it.
   */
  method RaisedBuildUnloadsButKeepsIndex(index: Index, good: string, next: string, error: string,
                                         query: string, question: string,
                                         ask: (Index, string) -> Result<string, string>)
    returns (success: bool, loaded: bool, tools: seq<Tool>, reply: PolicyReply)
    requires Accepted(FilePart(good)) && Accepted(FilePart(next)) && query != ""
    ensures !success && !loaded
    ensures PolicyChecker in tools
    ensures reply == QueryPolicy(question, Some(index), ask)
  {
    var store := new PolicyStore();
    var _ := store.UploadPdf(FilePart(good), Built(index));
    var response := store.UploadPdf(FilePart(next), BuildRaised(error));
    success := response.success;
    loaded := store.policyLoaded;
    var analysis := StartAnalysis(query, store.qaChain);
    tools := analysis.tools;
    reply := QueryPolicy(question, store.qaChain, ask);
  }
}
