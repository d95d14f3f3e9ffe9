/**
 * The OpenRouter chat-completion client: the request each analysis sends, the prompt choice,
 * the image mime type, and the extraction of a JSON answer from the model's reply.
 * The HTTP exchange itself is a parameter (`post`), and so is `json.loads` (`loads`, which
 * yields `None` where Python raises `JSONDecodeError`).
 */
module AiClient {
  import opened Common
  import opened Strings
  import opened Json

  const ApiUrl := "https://openrouter.ai/api/v1/chat/completions"
  const MaxTokens := 4096
  const Temperature := 0.1
  /** How much of the page text and of the HTML goes into a request. */
  const TextLimit := 15000
  const HtmlLimit := 20000

  const MissingKeyMessage := "OpenRouter API key is required. Set SCANNER_OPENROUTER_API_KEY environment variable or pass api_key parameter."
  const ImageMissingMessage := "Image file not found"

  // ---------------------------------------------------------------------------------------
  // Prompts and requests
  // ---------------------------------------------------------------------------------------

  /** The built-in system prompts for text analysis; their wording is not part of the model. */
  datatype PromptKind = GrammarPrompt | ContentPrompt | SeoPrompt | GeneralPrompt

  /** `_get_text_analysis_prompt`: a dictionary lookup that falls back to the general prompt. */
  function PromptFor(analysisType: string): (k: PromptKind)
    ensures k == GrammarPrompt <==> analysisType == "grammar"
    ensures k == ContentPrompt <==> analysisType == "content"
    ensures k == SeoPrompt <==> analysisType == "seo"
    ensures k == GeneralPrompt <==> analysisType !in {"grammar", "content", "seo"}
  {
    if analysisType == "grammar" then GrammarPrompt
    else if analysisType == "content" then ContentPrompt
    else if analysisType == "seo" then SeoPrompt
    else GeneralPrompt
  }

  /** The system message of a request. */
  datatype SystemPrompt = CustomPrompt(text: string) | TextPrompt(kind: PromptKind) | HtmlPrompt | ImagePrompt

  /** One piece of the user message: text, or an image sent inline as a base64 data URL. */
  datatype Part = TextPart(text: string) | ImagePart(mimeType: string, base64Data: string)

  /** The JSON payload posted to the chat-completions endpoint. */
  datatype Request = Request(model: string, system: SystemPrompt, user: seq<Part>, maxTokens: int, temperature: real)

  const TextIntro := "Analyze the following text:\n\n"
  const HtmlIntro := "Analyze this HTML:\n\n"
  const ImageIntro := "Analyze this website screenshot for visual issues:"

  /** A custom prompt is used when it is truthy; otherwise the prompt named by the analysis type. */
  function TextSystemPrompt(analysisType: string, customPrompt: Option<string>): (p: SystemPrompt)
    ensures Truthy(customPrompt) ==> p == CustomPrompt(customPrompt.value)
    ensures !Truthy(customPrompt) ==> p.TextPrompt? && (p.kind == GeneralPrompt <==> analysisType !in {"grammar", "content", "seo"})
  {
    if Truthy(customPrompt) then CustomPrompt(customPrompt.value) else TextPrompt(PromptFor(analysisType))
  }

  /** The user message of `analyze_text`: the intro, then at most the first 15000 characters of the text. */
  function TextMessage(text: string): (m: string)
    ensures StartsWith(m, TextIntro)
    ensures |m| == |TextIntro| + Min(|text|, TextLimit)
    ensures StartsWith(text, m[|TextIntro|..])
    ensures |text| <= TextLimit ==> m == TextIntro + text
  {
    var body := Take(text, TextLimit);
    AppendEnds(TextIntro, body);
    assert (TextIntro + body)[|TextIntro|..] == body;
    TextIntro + body
  }

  /** The `URL: ...` line that precedes the HTML, present only for a truthy URL. */
  function UrlContext(url: Option<string>): (c: string)
    ensures !Truthy(url) <==> c == ""
  {
    if Truthy(url) then "URL: " + url.value + "\n\n" else ""
  }

  /** The user message of `analyze_html`: the optional URL line, the intro, then at most 20000 characters of HTML. */
  function HtmlMessage(html: string, url: Option<string>): (m: string)
    ensures Truthy(url) ==> StartsWith(m, "URL: " + url.value + "\n\n" + HtmlIntro)
    ensures !Truthy(url) ==> StartsWith(m, HtmlIntro)
    ensures |m| == |UrlContext(url)| + |HtmlIntro| + Min(|html|, HtmlLimit)
    ensures StartsWith(html, m[|UrlContext(url)| + |HtmlIntro|..])
  {
    var head := UrlContext(url) + HtmlIntro;
    var body := Take(html, HtmlLimit);
    AppendEnds(head, body);
    assert (head + body)[|head|..] == body;
    head + body
  }

  /** The text part of `analyze_image`'s user message. */
  function ImageMessage(pageUrl: Option<string>): (m: string)
    ensures Truthy(pageUrl) ==> m == "Page URL: " + pageUrl.value + "\n\n" + ImageIntro
    ensures !Truthy(pageUrl) ==> m == ImageIntro
  {
    (if Truthy(pageUrl) then "Page URL: " + pageUrl.value + "\n\n" else "") + ImageIntro
  }

  // ---------------------------------------------------------------------------------------
  // Image mime type
  // ---------------------------------------------------------------------------------------

  /** The last component of a `/`-separated path (`Path.name`). */
  function BaseName(path: string): (name: string)
    ensures forall i :: 0 <= i < |name| ==> name[i] != '/'
    ensures EndsWith(path, name)
  {
    var k := RFindChar(path, '/');
    TailEnds(path, k + 1);
    path[k + 1..]
  }

  /** `Path.suffix`: from the last dot of the name, unless that dot starts or ends the name. */
  function Suffix(path: string): (s: string)
    ensures s == "" || (s[0] == '.' && 2 <= |s| && EndsWith(BaseName(path), s))
    ensures forall i :: 1 <= i < |s| ==> s[i] != '.' && s[i] != '/'
  {
    var name := BaseName(path);
    var i := RFindChar(name, '.');
    if 0 < i < |name| - 1 then
      TailEnds(name, i);
      name[i..]
    else ""
  }

  /** The mime type of the lower-cased suffix, `image/png` for any suffix not in the table. */
  function MimeType(path: string): (m: string)
    ensures m in {"image/png", "image/jpeg", "image/gif", "image/webp"}
    ensures m == "image/jpeg" <==> Lower(Suffix(path)) in {".jpg", ".jpeg"}
    ensures m == "image/gif" <==> Lower(Suffix(path)) == ".gif"
    ensures m == "image/webp" <==> Lower(Suffix(path)) == ".webp"
    ensures m == "image/png" <==> Lower(Suffix(path)) !in {".jpg", ".jpeg", ".gif", ".webp"}
  {
    var suffix := Lower(Suffix(path));
    if suffix == ".png" then "image/png"
    else if suffix == ".jpg" || suffix == ".jpeg" then "image/jpeg"
    else if suffix == ".gif" then "image/gif"
    else if suffix == ".webp" then "image/webp"
    else "image/png"
  }

  /** The last `c` is at `k` when `s[k]` is a `c` and none follows it. */
  lemma {:induction false} LastAt(s: string, c: char, k: nat)
    requires k < |s| && s[k] == c
    requires forall j | k < j < |s| :: s[j] != c
    ensures RFindChar(s, c) == k
  {
  }

  /** The name of `dir/name` is `name` when `name` has no slash. */
  lemma {:induction false} BaseNameAfterSlash(dir: string, name: string)
    requires forall i | 0 <= i < |name| :: name[i] != '/'
    ensures BaseName(dir + "/" + name) == name
  {
    var path := dir + "/" + name;
    assert forall j | |dir| < j < |path| :: path[j] == name[j - |dir| - 1];
    LastAt(path, '/', |dir|);
    assert path[|dir| + 1..] == name;
  }

  /** The suffix of `dir/stem.ext` is `.ext` when the stem is not empty and `ext` has no dot. */
  lemma {:induction false} SuffixOfName(dir: string, stem: string, ext: string)
    requires stem != "" && ext != ""
    requires forall i | 0 <= i < |stem| :: stem[i] != '/'
    requires forall i | 0 <= i < |ext| :: ext[i] != '/' && ext[i] != '.'
    ensures Suffix(dir + "/" + stem + "." + ext) == "." + ext
  {
    var name := stem + "." + ext;
    assert dir + "/" + stem + "." + ext == dir + "/" + name;
    BaseNameAfterSlash(dir, name);
    LastDotOfName(stem, ext);
  }

  /** In `stem.ext` with a dot-free `ext`, the last dot is the one after the stem. */
  lemma {:induction false} LastDotOfName(stem: string, ext: string)
    requires forall i | 0 <= i < |ext| :: ext[i] != '.'
    ensures RFindChar(stem + "." + ext, '.') == |stem|
    ensures (stem + "." + ext)[|stem|..] == "." + ext
  {
    var name := stem + "." + ext;
    assert forall j | |stem| < j < |name| :: name[j] == ext[j - |stem| - 1];
    LastAt(name, '.', |stem|);
    assert name[|stem|..] == "." + ext;
  }

  /** The suffix is compared after lower-casing: `shot.JPG` is sent as JPEG. */
  lemma {:induction false} UpperCaseSuffix(dir: string)
    ensures MimeType(dir + "/shot.JPG") == "image/jpeg"
  {
    SuffixOfName(dir, "shot", "JPG");
    assert dir + "/shot.JPG" == dir + "/" + "shot" + "." + "JPG";
    assert Lower(".JPG") == ".jpg";
  }

  /** A name whose only dot leads it has no suffix, so it is sent as PNG whatever it is called. */
  lemma {:induction false} HiddenFileHasNoSuffix(dir: string, ext: string)
    requires forall i | 0 <= i < |ext| :: ext[i] != '/' && ext[i] != '.'
    ensures MimeType(dir + "/." + ext) == "image/png"
  {
    var name := "." + ext;
    assert dir + "/." + ext == dir + "/" + name;
    BaseNameAfterSlash(dir, name);
    assert Suffix(dir + "/" + name) == "";
  }

  // ---------------------------------------------------------------------------------------
  // The JSON answer
  // ---------------------------------------------------------------------------------------

  /**
   * One subscript of `response["choices"][0]["message"]["content"]`: a value, a `KeyError`
   * or `IndexError` (caught by `_parse_response`), or a `TypeError` (not caught).
   */
  datatype Step = Found(value: Json) | Missing(message: string) | Raised(message: string)

  /** `j[key]` for a string key. */
  function KeyStep(j: Json, key: string): (s: Step)
    ensures s.Found? <==> j.JObject? && key in j.fields
    ensures s.Missing? <==> j.JObject? && key !in j.fields
  {
    match j
    case JObject(fields) => if key in fields then Found(fields[key]) else Missing("'" + key + "'")
    case JArray(_) => Raised("list indices must be integers or slices, not str")
    case JStr(_) => Raised("string indices must be integers, not 'str'")
    case _ => Raised("'" + TypeName(j) + "' object is not subscriptable")
  }

  /** `j[0]`; a dict has only string keys, so `0` is always missing from it. */
  function FirstStep(j: Json): (s: Step)
    ensures s.Found? <==> (j.JArray? && j.items != []) || (j.JStr? && j.s != "")
    ensures s.Missing? <==> j.JObject? || (j.JArray? && j.items == []) || (j.JStr? && j.s == "")
  {
    match j
    case JArray(items) => if items != [] then Found(items[0]) else Missing("list index out of range")
    case JObject(_) => Missing("0")
    case JStr(s) => if s != "" then Found(JStr(s[..1])) else Missing("string index out of range")
    case _ => Raised("'" + TypeName(j) + "' object is not subscriptable")
  }

  /** The next subscript, applied only when the previous one found a value. */
  function AndThen(s: Step, key: string): Step {
    if s.Found? then KeyStep(s.value, key) else s
  }

  /** The value at `choices[0].message.content`, or the first failing subscript. */
  function ContentStep(response: Json): Step {
    var choices := KeyStep(response, "choices");
    var first := if choices.Found? then FirstStep(choices.value) else choices;
    AndThen(AndThen(first, "message"), "content")
  }

  /** The reply `{"choices": [{"message": {"content": content}}]}` of a successful completion. */
  function Completion(content: string): Json {
    JObject(map["choices" := JArray([JObject(map["message" := JObject(map["content" := JStr(content)])])])])
  }

  /** `{"issues": [], "summary": content, "raw_response": content}`: the answer had no usable JSON. */
  function RawAnswer(content: string): Json {
    JObject(map["issues" := JArray([]), "summary" := JStr(content), "raw_response" := JStr(content)])
  }

  /** `{"issues": [], "error": message}`. */
  function ErrorAnswer(message: string): Json {
    JObject(map["issues" := JArray([]), "error" := JStr(message)])
  }

  /** `content[a..a + |span|] == span`, with no `{` before it and no `}` after it. */
  predicate Outermost(content: string, a: int, span: string) {
    0 <= a && a + |span| <= |content| && content[a..a + |span|] == span
    && (forall k | 0 <= k < a :: content[k] != '{')
    && (forall k | a + |span| <= k < |content| :: content[k] != '}')
  }

  /** Some `{` of the content precedes some `}`. */
  predicate HasBraces(content: string) {
    exists a, b | 0 <= a < b < |content| :: content[a] == '{' && content[b] == '}'
  }

  /** The match of `\{[\s\S]*\}`: the leftmost start is the first `{`, and the greedy body ends at the last `}`. */
  function Candidate(content: string): (r: Option<string>)
    ensures r.Some? ==> 2 <= |r.value| && r.value[0] == '{' && r.value[|r.value| - 1] == '}'
  {
    var a := FindChar(content, '{');
    var b := RFindChar(content, '}');
    if a < b then Some(content[a..b + 1]) else None
  }

  /** A candidate exists exactly when some `{` precedes some `}`. */
  lemma {:induction false} CandidateExists(content: string)
    ensures Candidate(content).Some? <==> HasBraces(content)
  {
    var a := FindChar(content, '{');
    var b := RFindChar(content, '}');
    if HasBraces(content) {
      var x, y :| 0 <= x < y < |content| && content[x] == '{' && content[y] == '}';
      assert a <= x && y <= b;
    }
  }

  /** The candidate is the span from the first `{` to the last `}`, both included. */
  lemma {:induction false} CandidateIsOutermost(content: string)
    requires Candidate(content).Some?
    ensures Outermost(content, FindChar(content, '{'), Candidate(content).value)
  {
  }

  /** `_parse_response`: the parsed candidate if it parses, the raw answer otherwise, or an error dict for a malformed reply. */
  function ParseResponse(response: Json, loads: string -> Option<Json>): (r: Result<Json, string>)
  {
    match ContentStep(response)
    case Missing(message) => Ok(ErrorAnswer(message))
    case Raised(message) => Err(message)
    case Found(content) =>
      if content.JStr? then
        var c := Candidate(content.s);
        if c.Some? && loads(c.value).Some? then Ok(loads(c.value).value) else Ok(RawAnswer(content.s))
      else Err("expected string or bytes-like object, got '" + TypeName(content) + "'")
  }

  /** A reply carrying text: the parsed candidate when there is one and it parses; the raw answer otherwise. */
  lemma {:induction false} ParseCompletion(content: string, loads: string -> Option<Json>)
    ensures HasBraces(content) && loads(Candidate(content).value).Some? ==>
      ParseResponse(Completion(content), loads) == Ok(loads(Candidate(content).value).value)
    ensures !HasBraces(content) ==> ParseResponse(Completion(content), loads) == Ok(RawAnswer(content))
    ensures HasBraces(content) && loads(Candidate(content).value).None? ==>
      ParseResponse(Completion(content), loads) == Ok(RawAnswer(content))
  {
    CandidateExists(content);
    var choice := JObject(map["message" := JObject(map["content" := JStr(content)])]);
    assert KeyStep(Completion(content), "choices") == Found(JArray([choice]));
    assert FirstStep(JArray([choice])) == Found(choice);
  }

  /** A reply without `choices` gives the error dict carrying `str(KeyError('choices'))`. */
  lemma {:induction false} NoChoices(response: map<string, Json>, loads: string -> Option<Json>)
    requires "choices" !in response
    ensures ParseResponse(JObject(response), loads) == Ok(ErrorAnswer("'choices'"))
  {
    assert ContentStep(JObject(response)) == Missing("'choices'");
  }

  /** An empty `choices` list gives the error dict of the `IndexError`. */
  lemma {:induction false} EmptyChoices(loads: string -> Option<Json>)
    ensures ParseResponse(JObject(map["choices" := JArray([])]), loads) == Ok(ErrorAnswer("list index out of range"))
  {
    assert KeyStep(JObject(map["choices" := JArray([])]), "choices") == Found(JArray([]));
  }

  /** A `null` content, as a refusal may carry, is not caught: `re.search` raises a `TypeError`. */
  lemma {:induction false} NullContentRaises(loads: string -> Option<Json>)
    ensures ParseResponse(JObject(map["choices" := JArray([JObject(map["message" := JObject(map["content" := JNull])])])]), loads).Err?
  {
    var message := JObject(map["content" := JNull]);
    var choice := JObject(map["message" := message]);
    assert KeyStep(JObject(map["choices" := JArray([choice])]), "choices") == Found(JArray([choice]));
    assert FirstStep(JArray([choice])) == Found(choice);
    assert KeyStep(choice, "message") == Found(message);
  }

  /** `loads` behaves as a JSON parser: text that starts with `{` can only parse to an object. */
  ghost predicate ObjectsFromBraces(loads: string -> Option<Json>) {
    forall s :: |s| > 0 && s[0] == '{' && loads(s).Some? ==> loads(s).value.JObject?
  }

  /** Every answer `_parse_response` returns is a dict, which is what the analyzer relies on. */
  lemma {:induction false} ParsedIsObject(response: Json, loads: string -> Option<Json>)
    requires ObjectsFromBraces(loads)
    ensures ParseResponse(response, loads).Ok? ==> ParseResponse(response, loads).value.JObject?
  {
  }

  /** An answer without a usable JSON span still carries an empty `issues` list and the text as its summary. */
  lemma {:induction false} RawAnswerShape(content: string)
    ensures RawAnswer(content).JObject? && RawAnswer(content).fields["issues"] == JArray([])
    ensures RawAnswer(content).fields["summary"] == JStr(content)
  {
  }

  // ---------------------------------------------------------------------------------------
  // The client
  // ---------------------------------------------------------------------------------------

  /** What `_make_request` returns: the decoded reply, or the message of the exception it re-raised. */
  function Answer(reply: Result<Json, string>, loads: string -> Option<Json>): (r: Result<Json, string>)
    ensures reply.Err? ==> r == Err(reply.error)
    ensures reply.Ok? ==> r == ParseResponse(reply.value, loads)
  {
    match reply
    case Err(e) => Err(e)
    case Ok(response) => ParseResponse(response, loads)
  }

  class OpenRouterClient {
    const apiKey: string
    const model: string
    const visionModel: string
    /** Whether `_client` holds an open HTTP client. */
    var open: bool

    /** The constructor's body once the key check has passed; `Create` performs the check. */
    constructor Init(apiKey: string, model: string, visionModel: string)
      ensures this.apiKey == apiKey && this.model == model && this.visionModel == visionModel
      ensures !open
    {
      this.apiKey := apiKey;
      this.model := model;
      this.visionModel := visionModel;
      open := false;
    }

    /** `OpenRouterClient(...)`: raises `ValueError` when the key is empty. */
    static method Create(apiKey: string, model: string, visionModel: string) returns (r: Result<OpenRouterClient, string>)
      ensures r.Err? <==> apiKey == ""
      ensures r.Err? ==> r.error == MissingKeyMessage
      ensures r.Ok? ==> fresh(r.value) && !r.value.open && r.value.apiKey == apiKey
    {
      if apiKey == "" {
        return Err(MissingKeyMessage);
      }
      var c := new OpenRouterClient.Init(apiKey, model, visionModel);
      return Ok(c);
    }

    method Start()
      modifies this
      ensures open
    {
      if !open {
        open := true;
      }
    }

    method Stop()
      modifies this
      ensures !open
    {
      if open {
        open := false;
      }
    }

    /** `_make_request`: opens the client if needed, then posts. */
    method MakeRequest(request: Request, post: Request -> Result<Json, string>) returns (reply: Result<Json, string>)
      modifies this
      ensures open && reply == post(request)
    {
      if !open {
        Start();
      }
      reply := post(request);
    }

    /** The request `analyze_text` posts. */
    function TextRequest(text: string, analysisType: string, customPrompt: Option<string>): (q: Request)
      ensures q.model == model && q.user == [TextPart(TextMessage(text))]
    {
      Request(model, TextSystemPrompt(analysisType, customPrompt), [TextPart(TextMessage(text))], MaxTokens, Temperature)
    }

    method AnalyzeText(text: string, analysisType: string, customPrompt: Option<string>,
                       post: Request -> Result<Json, string>, loads: string -> Option<Json>)
      returns (r: Result<Json, string>)
      modifies this
      ensures open
      ensures r == Answer(post(TextRequest(text, analysisType, customPrompt)), loads)
    {
      var reply := MakeRequest(TextRequest(text, analysisType, customPrompt), post);
      r := Answer(reply, loads);
    }

    /** The request `analyze_html` posts. */
    function HtmlRequest(html: string, url: Option<string>): (q: Request)
      ensures q.model == model && q.system == HtmlPrompt && q.user == [TextPart(HtmlMessage(html, url))]
    {
      Request(model, HtmlPrompt, [TextPart(HtmlMessage(html, url))], MaxTokens, Temperature)
    }

    method AnalyzeHtml(html: string, url: Option<string>,
                       post: Request -> Result<Json, string>, loads: string -> Option<Json>)
      returns (r: Result<Json, string>)
      modifies this
      ensures open
      ensures r == Answer(post(HtmlRequest(html, url)), loads)
    {
      var reply := MakeRequest(HtmlRequest(html, url), post);
      r := Answer(reply, loads);
    }

    /** The request `analyze_image` posts: the vision model, the text part, then the inline image. */
    function ImageRequest(imagePath: string, base64Data: string, pageUrl: Option<string>): (q: Request)
      ensures q.model == visionModel && q.system == ImagePrompt
      ensures q.user == [TextPart(ImageMessage(pageUrl)), ImagePart(MimeType(imagePath), base64Data)]
    {
      Request(visionModel, ImagePrompt, [TextPart(ImageMessage(pageUrl)), ImagePart(MimeType(imagePath), base64Data)], MaxTokens, Temperature)
    }

    /**
     * `analyze_image`. `image` is the base64 text of the file, or `None` when the file does not
     * exist; then nothing is posted and the client is left as it was.
     */
    method AnalyzeImage(imagePath: string, image: Option<string>, pageUrl: Option<string>,
                        post: Request -> Result<Json, string>, loads: string -> Option<Json>)
      returns (r: Result<Json, string>)
      modifies this
      ensures image.None? ==> r == Ok(ErrorAnswer(ImageMissingMessage)) && open == old(open)
      ensures image.Some? ==> open && r == Answer(post(ImageRequest(imagePath, image.value, pageUrl)), loads)
    {
      if image.None? {
        return Ok(ErrorAnswer(ImageMissingMessage));
      }
      var reply := MakeRequest(ImageRequest(imagePath, image.value, pageUrl), post);
      r := Answer(reply, loads);
    }
  }
}
