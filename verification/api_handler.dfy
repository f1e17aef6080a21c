/** The part of `APIHandler` that runs once the model's reply text has
    arrived: find the brace span, parse it as a JSON object, read `intent`
    and `url` with their defaults, give a scheme-less URL an `https://`
    prefix, and degrade to `("unknown", "")` when there is no span or the
    span is not JSON.  The chat-completion call is not modelled: the reply
    text is an input, and `json.loads` is a parameter. */
module ApiHandler {
  import opened Wrappers
  import opened Strings

  /** A decoded JSON object whose members are all strings. */
  type JsonObject = map<string, string>

  /** `json.loads` on a text that begins with `{`: `None` stands for
      `JSONDecodeError`.  Its internals are not modelled. */
  type JsonParser = string -> Option<JsonObject>

  /** The `(intent, url)` pair `APIHandler` returns. */
  datatype Classification = Classification(intent: string, url: string)

  /** The result when the reply holds no usable JSON object. */
  const Unknown := Classification("unknown", "")

  /** The scheme prefix the extractor and the dispatcher add. */
  const Https := "https://"

  /** `re.search(r'\{.*\}', s, re.DOTALL)` can match `s[i..j]`: the text
      opens with `{`, closes with `}`, and `.` matches every character in
      between, newlines included. */
  ghost predicate RegexMatch(s: string, i: int, j: int)
  {
    0 <= i && i + 2 <= j <= |s| && s[i] == '{' && s[j - 1] == '}'
  }

  /** `json_match.group(0)` when there is a match: the text from the first
      `{` to the last `}`, inclusive.  Braces are not balanced. */
  function BraceSpan(s: string): (r: Option<string>)
    ensures r.Some? ==> 2 <= |r.value| && r.value[0] == '{' && r.value[|r.value| - 1] == '}'
  {
    var first, last := IndexOf(s, '{'), LastIndexOf(s, '}');
    if first.Some? && last.Some? && first.value < last.value then
      Some(s[first.value..last.value + 1])
    else None
  }

  /** A span is found exactly when some `{` comes before some `}`, and it
      then runs from the first `{` of the text to its last `}`. */
  lemma BraceSpanRunsFirstToLast(s: string)
    ensures BraceSpan(s).Some? <==> exists a, b :: 0 <= a < b < |s| && s[a] == '{' && s[b] == '}'
    ensures BraceSpan(s).Some? ==>
      exists a, b :: 0 <= a < b < |s| && BraceSpan(s).value == s[a..b + 1]
        && s[a] == '{' && (forall k :: 0 <= k < a ==> s[k] != '{')
        && s[b] == '}' && (forall k :: b < k < |s| ==> s[k] != '}')
  {
  }

  /** The span is exactly the match Python's `re.search` reports: among all
      the places the pattern can match, the leftmost start, and for that
      start the longest match, because `.*` is greedy. */
  lemma {:induction false} BraceSpanIsLeftmostGreedyMatch(s: string)
    ensures BraceSpan(s).Some? <==> exists i, j :: RegexMatch(s, i, j)
    ensures BraceSpan(s).Some? ==>
      exists i, j :: RegexMatch(s, i, j) && BraceSpan(s).value == s[i..j]
        && (forall i', j' :: RegexMatch(s, i', j') ==> i <= i')
        && (forall j' :: RegexMatch(s, i, j') ==> j' <= j)
  {
    if BraceSpan(s).Some? {
      var a, b := IndexOf(s, '{').value, LastIndexOf(s, '}').value;
      assert RegexMatch(s, a, b + 1);
      assert BraceSpan(s).value == s[a..b + 1];
    }
  }

  /** When no `}` follows any `{`, there is no span. */
  lemma NoSpanWhenNoClosingBraceFollows(s: string)
    requires forall a, b :: 0 <= a < b < |s| && s[a] == '{' ==> s[b] != '}'
    ensures BraceSpan(s) == None
  {
  }

  /** Searching a window whose surroundings lack `c` finds the same
      occurrence, shifted by the window's start. */
  lemma IndexOfWindow(s: string, i: nat, j: nat, c: char)
    requires i <= j <= |s|
    requires forall k :: 0 <= k < i ==> s[k] != c
    requires forall k :: j <= k < |s| ==> s[k] != c
    ensures IndexOf(s, c).Some? <==> IndexOf(s[i..j], c).Some?
    ensures IndexOf(s, c).Some? ==> IndexOf(s, c).value == IndexOf(s[i..j], c).value + i
  {
  }

  /** The same for the last occurrence. */
  lemma LastIndexOfWindow(s: string, i: nat, j: nat, c: char)
    requires i <= j <= |s|
    requires forall k :: 0 <= k < i ==> s[k] != c
    requires forall k :: j <= k < |s| ==> s[k] != c
    ensures LastIndexOf(s, c).Some? <==> LastIndexOf(s[i..j], c).Some?
    ensures LastIndexOf(s, c).Some? ==> LastIndexOf(s, c).value == LastIndexOf(s[i..j], c).value + i
  {
  }

  /** The span is fixed by where the first `{` and the last `}` are. */
  lemma BraceSpanAt(s: string, a: nat, b: nat)
    requires IndexOf(s, '{') == Some(a) && LastIndexOf(s, '}') == Some(b)
    ensures BraceSpan(s) == if a < b then Some(s[a..b + 1]) else None
  {
  }

  /** A window that keeps the first `{` and the last `}` at the same places,
      shifted by the window's start, has the same span. */
  lemma BraceSpanOfShiftedWindow(s: string, i: nat, j: nat, a: nat, b: nat)
    requires i <= a && i <= j && b < j <= |s|
    requires IndexOf(s, '{') == Some(a) && LastIndexOf(s, '}') == Some(b)
    requires IndexOf(s[i..j], '{') == Some(a - i) && LastIndexOf(s[i..j], '}') == Some(b - i)
    ensures BraceSpan(s[i..j]) == BraceSpan(s)
  {
    var t := s[i..j];
    BraceSpanAt(s, a, b);
    BraceSpanAt(t, a - i, b - i);
    if a < b {
      SliceOfSlice(s, i, j, a - i, b - i + 1);
    }
  }

  /** Cutting away a prefix and a suffix that hold no brace leaves the span
      unchanged. */
  lemma BraceSpanOfWindow(s: string, i: nat, j: nat)
    requires i <= j <= |s|
    requires forall k :: 0 <= k < i ==> s[k] != '{' && s[k] != '}'
    requires forall k :: j <= k < |s| ==> s[k] != '{' && s[k] != '}'
    ensures BraceSpan(s[i..j]) == BraceSpan(s)
  {
    IndexOfWindow(s, i, j, '{');
    LastIndexOfWindow(s, i, j, '}');
    var fs, ls := IndexOf(s, '{'), LastIndexOf(s, '}');
    if fs.Some? && ls.Some? {
      BraceSpanOfShiftedWindow(s, i, j, fs.value, ls.value);
    }
  }

  /** Prose without braces on either side of an object is ignored: the
      span is the object itself. */
  lemma BraceSpanOfEmbeddedObject(before: string, obj: string, after: string)
    requires 2 <= |obj| && obj[0] == '{' && obj[|obj| - 1] == '}'
    requires forall k :: 0 <= k < |before| ==> before[k] != '{' && before[k] != '}'
    requires forall k :: 0 <= k < |after| ==> after[k] != '{' && after[k] != '}'
    ensures BraceSpan(before + obj + after) == Some(obj)
  {
    var s := before + obj + after;
    var i, j := |before|, |before| + |obj|;
    assert s[i..j] == obj;
    forall k | j <= k < |s|
      ensures s[k] != '{' && s[k] != '}'
    {
      assert s[k] == after[k - j];
    }
    BraceSpanOfWindow(s, i, j);
    assert IndexOf(obj, '{') == Some(0);
    assert LastIndexOf(obj, '}') == Some(|obj| - 1);
    assert obj[0..|obj|] == obj;
  }

  /** Braces are not balanced: two objects in one reply, with any text
      between them, merge into a single span that runs from the first
      object's `{` to the second object's `}`. */
  lemma BraceSpanMergesSeparateObjects(before: string, x: string, middle: string, y: string, after: string)
    requires 2 <= |x| && x[0] == '{' && x[|x| - 1] == '}'
    requires 2 <= |y| && y[0] == '{' && y[|y| - 1] == '}'
    requires forall k :: 0 <= k < |before| ==> before[k] != '{' && before[k] != '}'
    requires forall k :: 0 <= k < |after| ==> after[k] != '{' && after[k] != '}'
    ensures BraceSpan(before + x + middle + y + after) == Some(x + middle + y)
  {
    var obj := x + middle + y;
    assert obj[0] == x[0] && obj[|obj| - 1] == y[|y| - 1];
    BraceSpanOfEmbeddedObject(before, obj, after);
    assert before + x + middle + y + after == before + obj + after;
  }

  /** The reply is stripped of surrounding whitespace before the search;
      since no whitespace character is a brace, stripping never changes the
      span. */
  lemma BraceSpanIgnoresStrip(s: string)
    ensures BraceSpan(Strip(s)) == BraceSpan(s)
  {
    var i, j := StripWindow(s);
    BraceSpanOfWindow(s, i, j);
  }

  /** A URL is normalised when it is empty or already begins with `http`. */
  predicate IsNormalised(url: string)
  {
    url == [] || StartsWith(url, "http")
  }

  /** The scheme fix-up: a non-empty URL that does not begin with `http`
      gets `https://` in front; any other URL is returned as is. */
  function NormaliseUrl(url: string): (r: string)
    ensures IsNormalised(r)
    ensures IsNormalised(url) <==> r == url
    ensures !IsNormalised(url) ==> r == Https + url
  {
    if url != [] && !StartsWith(url, "http") then
      StartsWithAppend(Https, url, "http");
      Https + url
    else url
  }

  /** Normalising twice is the same as normalising once. */
  lemma NormaliseUrlIdempotent(url: string)
    ensures NormaliseUrl(NormaliseUrl(url)) == NormaliseUrl(url)
  {
  }

  /** The check is on the four letters `http` only, so a host that merely
      begins with them keeps having no scheme, while a bare domain gets one. */
  lemma NormaliseUrlChecksPrefixOnly()
    ensures NormaliseUrl("httpbin.org") == "httpbin.org"
    ensures NormaliseUrl("zhihu.com") == "https://zhihu.com"
    ensures NormaliseUrl("http://a.cn") == "http://a.cn"
    ensures NormaliseUrl("") == ""
  {
    assert StartsWith("httpbin.org", "http");
    assert !StartsWith("zhihu.com", "http") by {
      assert "zhihu.com"[0] != 'h';
    }
    assert StartsWith("http://a.cn", "http");
  }

  /** `obj.get(key, default)`. */
  function Get(obj: JsonObject, key: string, default: string): string
  {
    if key in obj then obj[key] else default
  }

  /** Reads the two fields of a parsed object with their defaults and fixes
      up the URL. */
  function FromObject(obj: JsonObject): (r: Classification)
    ensures "intent" in obj ==> r.intent == obj["intent"]
    ensures "intent" !in obj ==> r.intent == "unknown"
    ensures "url" in obj ==> r.url == NormaliseUrl(obj["url"])
    ensures "url" !in obj ==> r.url == ""
  {
    Classification(Get(obj, "intent", "unknown"), NormaliseUrl(Get(obj, "url", "")))
  }

  /** Only the `intent` and `url` members are read: two objects that agree
      on those give the same result, whatever other members they carry. */
  lemma FromObjectReadsOnlyTwoKeys(o1: JsonObject, o2: JsonObject)
    requires forall k | k == "intent" || k == "url" :: (k in o1 <==> k in o2) && (k in o1 ==> o1[k] == o2[k])
    ensures FromObject(o1) == FromObject(o2)
  {
  }

  /** The `try` block on the stripped reply text: search, parse, read. */
  function ClassifyContent(content: string, parse: JsonParser): (r: Classification)
    ensures BraceSpan(content).None? ==> r == Unknown
    ensures BraceSpan(content).Some? && parse(BraceSpan(content).value).None? ==> r == Unknown
    ensures BraceSpan(content).Some? && parse(BraceSpan(content).value).Some? ==>
              r == FromObject(parse(BraceSpan(content).value).value)
    ensures IsNormalised(r.url)
  {
    match BraceSpan(content)
    case None => Unknown
    case Some(span) =>
      match parse(span)
      case None => Unknown
      case Some(obj) => FromObject(obj)
  }

  /** The extractor as a whole: strip the reply, then classify it.  The
      result is the same as classifying the unstripped reply. */
  function Extract(reply: string, parse: JsonParser): (r: Classification)
    ensures r == ClassifyContent(reply, parse)
    ensures IsNormalised(r.url)
  {
    BraceSpanIgnoresStrip(reply);
    ClassifyContent(Strip(reply), parse)
  }

  /** The sentinel comes back exactly when the reply has no span, the span
      is not JSON, or the object itself carries no URL and an `unknown` (or
      no) intent. */
  lemma ExtractUnknownIff(reply: string, parse: JsonParser)
    ensures Extract(reply, parse) == Unknown <==>
      || BraceSpan(reply).None?
      || parse(BraceSpan(reply).value).None?
      || (var obj := parse(BraceSpan(reply).value).value;
          Get(obj, "intent", "unknown") == "unknown" && Get(obj, "url", "") == "")
  {
  }
}
