/** The whole of `execute_command(command)`: the classifier's reply is
    extracted, then the fallback ladder picks the URL.  The reply text the
    hosted model returns for `command` is an input here. */
module Pipeline {
  import opened Wrappers
  import opened Strings
  import opened ApiHandler
  import opened CommandHelper

  /** `execute_command(command)` when the model answered `reply`.  Whatever
      the reply, exactly one URL is opened and it begins with `http`. */
  function Dispatch(command: string, reply: string, parse: JsonParser, quote: Quoter): (a: Action)
    ensures StartsWith(a.target, "http")
  {
    var c := Extract(reply, parse);
    ExecuteCommandOpensHttp(command, c.intent, c.url, quote);
    ExecuteCommand(command, c.intent, c.url, quote)
  }

  /** A reply without a brace span, or whose span is not JSON, ends in a
      general web search for the user's text. */
  lemma DispatchWithoutJsonSearchesWeb(command: string, reply: string, parse: JsonParser, quote: Quoter)
    requires BraceSpan(reply).None? || parse(BraceSpan(reply).value).None?
    ensures Dispatch(command, reply, parse, quote) == Action(WebSearchPrefix + quote(command), SearchStatus + command)
  {
  }

  /** A non-empty URL in the parsed object is what gets opened, after scheme
      normalisation, whatever the intent says. */
  lemma DispatchPrefersReturnedUrl(command: string, reply: string, parse: JsonParser, quote: Quoter)
    requires BraceSpan(reply).Some? && parse(BraceSpan(reply).value).Some?
    requires var obj := parse(BraceSpan(reply).value).value; "url" in obj && obj["url"] != ""
    ensures var u := NormaliseUrl(parse(BraceSpan(reply).value).value["url"]);
      Dispatch(command, reply, parse, quote) == Action(u, OpenedStatus + u)
  {
  }

  /** A reply whose parsed object has no usable URL leaves the choice to
      the intent: the same action as the ladder gives for that intent alone. */
  lemma DispatchWithoutUrlFollowsIntent(command: string, reply: string, parse: JsonParser, quote: Quoter)
    requires BraceSpan(reply).Some? && parse(BraceSpan(reply).value).Some?
    requires var obj := parse(BraceSpan(reply).value).value; "url" !in obj || obj["url"] == ""
    ensures var intent := Get(parse(BraceSpan(reply).value).value, "intent", "unknown");
      Dispatch(command, reply, parse, quote) == ExecuteCommand(command, intent, "", quote)
  {
  }

  /** The object a model might return for "open Zhihu". */
  const ZhihuObject := "{\"intent\":\"open_website\",\"url\":\"zhihu.com\"}"

  /** Prose around the object is ignored and a bare domain gains a scheme:
      the reply `noise {"intent":"open_website","url":"zhihu.com"} noise`
      opens `https://zhihu.com`. */
  lemma DispatchReplyWithProse(command: string, parse: JsonParser, quote: Quoter)
    requires parse(ZhihuObject) == Some(map["intent" := "open_website", "url" := "zhihu.com"])
    ensures Extract("noise " + ZhihuObject + " noise", parse) == Classification("open_website", "https://zhihu.com")
    ensures Dispatch(command, "noise " + ZhihuObject + " noise", parse, quote).target == "https://zhihu.com"
  {
    assert BraceSpan("noise " + ZhihuObject + " noise") == Some(ZhihuObject) by {
      assert ZhihuObject[0] == '{' && ZhihuObject[|ZhihuObject| - 1] == '}';
      BraceSpanOfEmbeddedObject("noise ", ZhihuObject, " noise");
    }
    assert NormaliseUrl("zhihu.com") == "https://zhihu.com" by {
      NormaliseUrlChecksPrefixOnly();
    }
  }
}
