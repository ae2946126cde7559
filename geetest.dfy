/// The captcha ("geetest") helper: the state of one captcha from its
/// creation to its answer, the answer arriving through the local page's
/// result path, and the local server's lifecycle. The captcha request's
/// response, the page templates and the server's address are parameters.
module Geetest {
  import opened Common
  import opened Json

  /// `GeetestType`: captchas for logging in and for verifying a login.
  datatype GeetestType = Login | Verify

  /// The API the captcha is requested from.
  function ApiName(t: GeetestType): (r: string)
    ensures t == Login <==> r == "password"
  {
    match t
    case Login => "password"
    case Verify => "safecenter"
  }

  /// `GeetestMeta`: the captcha's identity and, once answered, its answer.
  datatype GeetestMeta = GeetestMeta(gt: Json, challenge: Json, token: Json,
                                     validate: Option<string>, seccode: Option<string>)

  const NOT_GENERATED: string := "未生成过测试。请调用 `generate_test`"
  const NOT_DONE: string := "未完成验证。请调用 `complete_test` 或来到 `get_geetest_server_url` 页面完成验证码。"
  const SERVER_EXISTS: string := "验证码服务已创建。"
  const NO_SERVER: string := "未创建验证码服务。请调用 `start_geetest_server`"
  const NO_THREAD: string := "AttributeError"

  const GT_PLACEHOLDER: string := "{ Python_Interface: GT }"
  const CHALLENGE_PLACEHOLDER: string := "{ Python_Interface: CHALLENGE }"

  /// The value `__init__` gives the token.
  const INITIAL_KEY: Json := JString("")

  /// `value[key]` after an earlier lookup that may have failed.
  function FieldOf(v: Result<Json>, key: string): Result<Json>
  {
    match v
    case Err(e) => Err(e)
    case Ok(j) => Field(j, key)
  }

  /// The captcha id, challenge and token read from a captcha response,
  /// in the order they are read; the two APIs answer in two shapes.
  function CaptchaFields(t: GeetestType, response: Json): (Result<Json>, Result<Json>, Result<Json>)
  {
    match t
    case Login =>
      (FieldOf(Field(response, "geetest"), "gt"), FieldOf(Field(response, "geetest"), "challenge"),
       Field(response, "token"))
    case Verify =>
      (Field(response, "gee_gt"), Field(response, "gee_challenge"), Field(response, "recaptcha_token"))
  }

  /// One `name=value` part of a result path applied to the answer so
  /// far: `validate` takes the text after its ninth character, `seccode`
  /// the text after its eighth with `%7C` decoded to `|`; other parts
  /// change nothing.
  function ApplyPart(part: string, answer: (Option<string>, Option<string>)): (Option<string>, Option<string>)
  {
    if PyTo(part, 8) == "validate" then (Some(PyFrom(part, 9)), answer.1)
    else if PyTo(part, 7) == "seccode" then (answer.0, Some(ReplaceAll(PyFrom(part, 8), "%7C", "|")))
    else answer
  }

  /// The parts applied in order.
  function ApplyParts(parts: seq<string>, answer: (Option<string>, Option<string>)): (Option<string>, Option<string>)
    decreases |parts|
  {
    if |parts| == 0 then answer
    else ApplyPart(parts[|parts| - 1], ApplyParts(parts[..|parts| - 1], answer))
  }

  /// The captcha page: the template with the captcha id and challenge
  /// quoted in place of their placeholders. `str` is Python's `str`.
  function CaptchaPage(template: string, gt: Json, challenge: Json, str: Json -> string): string
  {
    ReplaceAll(ReplaceAll(template, GT_PLACEHOLDER, "\"" + str(gt) + "\""),
               CHALLENGE_PLACEHOLDER, "\"" + str(challenge) + "\"")
  }

  /// What `get_geetest_server_url` gives back: the address, or an
  /// exception object that is returned rather than raised.
  datatype ServerUrl = Url(url: string) | ReturnedException(message: string)

  class Geetest {
    var gt: Json
    var validate: Option<string>
    var seccode: Option<string>
    var challenge: Json
    /// The captcha token; `JNull` stands for Python's `None`.
    var key: Json
    /// The local server's address while it runs (`thread`).
    var server: Option<string>
    var done: bool
    var testType: Option<GeetestType>

    /// `__init__`.
    constructor ()
      ensures gt == JString("") && challenge == JString("") && key == INITIAL_KEY
      ensures validate == Some("") && seccode == Some("")
      ensures server == None && !done && testType == None
    {
      gt := JString("");
      validate := Some("");
      seccode := Some("");
      challenge := JString("");
      key := INITIAL_KEY;
      server := None;
      done := false;
      testType := None;
    }

    /// `test_generated` as written: whether the token is not `None`.
    predicate TestGeneratedAsWritten()
      reads this
    {
      key != JNull
    }

    /// Whether `generate_test` has run, which the check is meant to tell.
    predicate TestGenerated()
      reads this
    {
      testType.Some?
    }

    /// `generate_test`: the captcha id, challenge and token are stored one
    /// after the other, the first missing one stopping the rest; once all
    /// three are read the answer is cleared, the captcha is not done and
    /// its type is recorded.
    method GenerateTest(t: GeetestType, response: Json) returns (r: Result<()>)
      modifies this
      ensures var (g, c, k) := CaptchaFields(t, response);
              (r.Ok? <==> g.Ok? && c.Ok? && k.Ok?)
              && gt == (if g.Ok? then g.value else old(gt))
              && challenge == (if g.Ok? && c.Ok? then c.value else old(challenge))
              && key == (if g.Ok? && c.Ok? && k.Ok? then k.value else old(key))
      ensures r.Ok? ==> validate == None && seccode == None && !done && testType == Some(t)
      ensures r.Err? ==> validate == old(validate) && seccode == old(seccode) && done == old(done)
                         && testType == old(testType)
      ensures server == old(server)
    {
      var (g, c, k) := CaptchaFields(t, response);
      if g.Err? {
        return Err(g.error);
      }
      gt := g.value;
      if c.Err? {
        return Err(c.error);
      }
      challenge := c.value;
      if k.Err? {
        return Err(k.error);
      }
      key := k.value;
      validate := None;
      seccode := None;
      done := false;
      testType := Some(t);
      return Ok(());
    }

    /// `get_test_type` as written: the recorded type, which may be `None`,
    /// unless the token is `None`.
    function GetTestTypeAsWritten(): (r: Result<Option<GeetestType>>)
      reads this
      ensures r.Ok? <==> TestGeneratedAsWritten()
      ensures r.Ok? ==> r.value == testType
    {
      if TestGeneratedAsWritten() then Ok(testType) else Err(NOT_GENERATED)
    }

    /// `get_test_type`, with the check it is meant to make: the type of
    /// the last captcha generated, an error before any.
    function GetTestType(): (r: Result<GeetestType>)
      reads this
      ensures r.Ok? <==> TestGenerated()
      ensures r.Ok? ==> testType == Some(r.value)
      ensures r.Err? ==> r.error == NOT_GENERATED
    {
      if TestGenerated() then Ok(testType.value) else Err(NOT_GENERATED)
    }

    /// `get_result`: the captcha with its answer once it is done, an
    /// error before.
    function GetResult(): (r: Result<GeetestMeta>)
      reads this
      ensures r.Ok? <==> done
      ensures r.Ok? ==> r.value.validate == validate && r.value.seccode == seccode
                        && r.value.token == key && r.value.gt == gt && r.value.challenge == challenge
      ensures r.Err? ==> r.error == NOT_DONE
    {
      if done then Ok(GeetestMeta(gt, challenge, key, validate, seccode)) else Err(NOT_DONE)
    }

    /// `complete_test`: the answer is stored and the captcha is done.
    method CompleteTest(v: string, s: string)
      modifies this
      ensures validate == Some(v) && seccode == Some(s) && done
      ensures gt == old(gt) && challenge == old(challenge) && key == old(key)
      ensures server == old(server) && testType == old(testType)
      ensures GetResult() == Ok(GeetestMeta(gt, challenge, key, Some(v), Some(s)))
    {
      validate := Some(v);
      seccode := Some(s);
      done := true;
    }

    /// `_geetest_urlhandler`: a `result/` path (after its leading
    /// character) records the answer its parts carry and marks the captcha
    /// done, serving the done page; the empty path serves the captcha
    /// page; any other path serves nothing and changes nothing.
    method UrlHandler(url: string, donePage: string, captchaTemplate: string, str: Json -> string)
      returns (page: string)
      modifies this
      ensures var path := PyFrom(url, 1);
              if PyTo(path, 7) == "result/" then
                page == donePage && done
                && (validate, seccode) == ApplyParts(Split(PyFrom(path, 7), '&'), (old(validate), old(seccode)))
              else
                validate == old(validate) && seccode == old(seccode) && done == old(done)
                && page == (if path == "" then CaptchaPage(captchaTemplate, gt, challenge, str) else "")
      ensures gt == old(gt) && challenge == old(challenge) && key == old(key)
      ensures server == old(server) && testType == old(testType)
    {
      var path := PyFrom(url, 1);
      if PyTo(path, 7) == "result/" {
        var parts := Split(PyFrom(path, 7), '&');
        for i := 0 to |parts|
          invariant (validate, seccode) == ApplyParts(parts[..i], (old(validate), old(seccode)))
          invariant done == (old(done) || i > 0)
          invariant gt == old(gt) && challenge == old(challenge) && key == old(key)
          invariant server == old(server) && testType == old(testType)
        {
          assert parts[..i + 1][..i] == parts[..i];
          var data := parts[i];
          if PyTo(data, 8) == "validate" {
            validate := Some(PyFrom(data, 9));
          } else if PyTo(data, 7) == "seccode" {
            seccode := Some(ReplaceAll(PyFrom(data, 8), "%7C", "|"));
          }
          done := true;
        }
        assert parts[..|parts|] == parts;
        page := donePage;
      } else if path == "" {
        page := CaptchaPage(captchaTemplate, gt, challenge, str);
      } else {
        page := "";
      }
    }

    /// `start_geetest_server`: an error while a server runs; otherwise the
    /// server is started and listens at `url`.
    method StartGeetestServer(url: string) returns (r: Result<()>)
      modifies this
      ensures r.Err? <==> old(server).Some?
      ensures r.Err? ==> r.error == SERVER_EXISTS && server == old(server)
      ensures r.Ok? ==> server == Some(url)
      ensures gt == old(gt) && challenge == old(challenge) && key == old(key) && done == old(done)
      ensures validate == old(validate) && seccode == old(seccode) && testType == old(testType)
    {
      if server.Some? {
        return Err(SERVER_EXISTS);
      }
      server := Some(url);
      return Ok(());
    }

    /// `get_geetest_server_url`: the server's address, or the exception
    /// object when none runs.
    function GetGeetestServerUrl(): (r: ServerUrl)
      reads this
      ensures r.Url? <==> server.Some?
      ensures r.Url? ==> server == Some(r.url)
      ensures r.ReturnedException? ==> r.message == NO_SERVER
    {
      match server
      case Some(u) => Url(u)
      case None => ReturnedException(NO_SERVER)
    }

    /// `close_geetest_server`: the server is stopped; without one the
    /// call fails on the missing thread.
    method CloseGeetestServer() returns (r: Result<()>)
      modifies this
      ensures r.Err? <==> old(server).None?
      ensures r.Err? ==> r.error == NO_THREAD
      ensures server == None
      ensures gt == old(gt) && challenge == old(challenge) && key == old(key) && done == old(done)
      ensures validate == old(validate) && seccode == old(seccode) && testType == old(testType)
    {
      if server.None? {
        return Err(NO_THREAD);
      }
      server := None;
      return Ok(());
    }
  }

  /// As written, the check passes on a fresh helper, whose token is `""`
  /// and not `None` although no captcha has been generated: the type comes
  /// back as `None` instead of the error the check is there to raise.
  lemma FreshHelperCountsAsGenerated(g: Geetest)
    requires g.key == INITIAL_KEY && g.testType == None
    ensures g.GetTestTypeAsWritten() == Ok(None)
    ensures g.GetTestType() == Err(NOT_GENERATED)
  {
  }

  // ---------------------------------------------------------------------
  // The result path
  // ---------------------------------------------------------------------

  /// How the captcha page sends a `seccode`: `|` encoded as `%7C`.
  function EncodeBar(s: string): (r: string)
    ensures '|' !in r
    ensures '&' !in s ==> '&' !in r
    decreases |s|
  {
    if |s| == 0 then "" else (if s[0] == '|' then "%7C" else [s[0]]) + EncodeBar(s[1..])
  }

  /// Decoding undoes the encoding for text without `%`.
  lemma {:induction false} DecodeEncodeBar(s: string)
    requires '%' !in s
    ensures ReplaceAll(EncodeBar(s), "%7C", "|") == s
    decreases |s|
  {
    if |s| > 0 {
      DecodeEncodeBar(s[1..]);
      var rest := EncodeBar(s[1..]);
      if s[0] == '|' {
        assert EncodeBar(s) == "%7C" + rest;
        assert StartsWith("%7C" + rest, "%7C");
        assert ("%7C" + rest)[3..] == rest;
        assert ReplaceAll(EncodeBar(s), "%7C", "|") == "|" + ReplaceAll(rest, "%7C", "|");
      } else {
        assert EncodeBar(s) == [s[0]] + rest;
        assert s[0] != '%' && ([s[0]] + rest)[0] == s[0];
        assert !StartsWith([s[0]] + rest, "%7C");
        assert ([s[0]] + rest)[1..] == rest;
        assert ReplaceAll(EncodeBar(s), "%7C", "|") == [s[0]] + ReplaceAll(rest, "%7C", "|");
      }
      assert s == [s[0]] + s[1..];
    }
  }

  /// The answer the captcha page sends, as the parts of its query.
  function AnswerQuery(v: string, s: string): string
  {
    ("validate=" + v) + "&" + ("seccode=" + EncodeBar(s))
  }

  /// The path the captcha page requests once answered.
  function ResultPath(v: string, s: string): string
  {
    "/result/" + AnswerQuery(v, s)
  }

  lemma ValidatePart(v: string, answer: (Option<string>, Option<string>))
    ensures ApplyPart("validate=" + v, answer) == (Some(v), answer.1)
  {
    var a := "validate=" + v;
    assert PyTo(a, 8) == "validate" && PyFrom(a, 9) == v;
  }

  lemma SeccodePart(s: string, answer: (Option<string>, Option<string>))
    requires '%' !in s
    ensures ApplyPart("seccode=" + EncodeBar(s), answer) == (answer.0, Some(s))
  {
    var b := "seccode=" + EncodeBar(s);
    assert PyTo(b, 8) != "validate" by {
      assert b[0] == 's';
    }
    assert PyTo(b, 7) == "seccode" && PyFrom(b, 8) == EncodeBar(s);
    DecodeEncodeBar(s);
  }

  /// Two parts free of `&` joined by one split back into those parts.
  lemma TwoParts(a: string, b: string)
    requires '&' !in a && '&' !in b
    ensures Split(a + "&" + b, '&') == [a, b]
  {
    assert a + "&" + b == a + ['&'] + b;
    SplitCons(a, '&', b);
    assert FindChar(b, '&') == None;
  }

  /// The handler sees the query after `/result/`.
  lemma ResultPrefix(query: string)
    ensures PyTo(PyFrom("/result/" + query, 1), 7) == "result/"
    ensures PyFrom(PyFrom("/result/" + query, 1), 7) == query
  {
    assert PyFrom("/result/" + query, 1) == "result/" + query;
  }

  /// The answer the page sends is the answer recorded, whatever was
  /// recorded before.
  lemma ResultPathRoundTrip(v: string, s: string, before: (Option<string>, Option<string>))
    requires '&' !in v && '&' !in s && '%' !in s
    ensures PyTo(PyFrom(ResultPath(v, s), 1), 7) == "result/"
    ensures ApplyParts(Split(PyFrom(PyFrom(ResultPath(v, s), 1), 7), '&'), before) == (Some(v), Some(s))
  {
    ResultPrefix(AnswerQuery(v, s));
    var a, b := "validate=" + v, "seccode=" + EncodeBar(s);
    assert '&' !in a && '&' !in b;
    TwoParts(a, b);
    var parts := [a, b];
    assert parts[..1] == [a] && [a][..0] == [];
    ValidatePart(v, before);
    assert ApplyParts([a], before) == (Some(v), before.1);
    SeccodePart(s, (Some(v), before.1));
    assert ApplyParts(parts, before) == ApplyPart(b, ApplyParts([a], before));
  }

  /// Any result path, even one carrying no answer, marks the captcha done:
  /// the path always splits into at least one part.
  lemma ResultPathAlwaysHasAPart(rest: string)
    ensures |Split(rest, '&')| >= 1
  {
  }
}
