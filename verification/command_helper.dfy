/** `execute_command`: given the user's text and the `(intent, url)` pair
    from the extractor, choose the single URL to open and the status
    message to show.  `webbrowser.open` becomes the `target` of the
    returned `Action`, and `urllib.parse.quote` is a parameter. */
module CommandHelper {
  import opened Strings
  import opened ApiHandler

  /** `urllib.parse.quote`: percent-encoding of a query text.  Its
      internals are not modelled. */
  type Quoter = string -> string

  /** One `webbrowser.open(target)` followed by `return status`. */
  datatype Action = Action(target: string, status: string)

  /** The rungs of the fallback ladder, in the order they are tried. */
  datatype Route = OpenReturnedUrl | SearchVideo | SearchMusic | OpenAsDomain | SearchWeb

  const VideoSearchPrefix := Https + "search.bilibili.com/all?keyword="
  const MusicSearchPrefix := Https + "music.163.com/#/search/m/?s="
  const MusicSearchSuffix := "&type=1"
  const WebSearchPrefix := Https + "cn.bing.com/search?q="

  const OpenedStatus := "✅ 已打开: "
  const VideoStatus := "🎬 已为你在哔哩哔哩搜索: "
  const MusicStatus := "🎵 已为你在网易云搜索: "
  const DomainStatus := "🌐 已尝试打开: "
  const SearchStatus := "🔍 已为你搜索: "

  /** The intent tags the ladder knows, compared after lower-casing. */
  const WatchVideo := "watch_video"
  const ListenMusic := "listen_music"
  const OpenWebsite := "open_website"

  /** The rung that fires.  Each rung's condition is stated on its own, so
      the five conditions together say that exactly one rung fires for every
      input and that a returned URL outranks every intent. */
  function ChooseRoute(command: string, intent: string, url: string): (r: Route)
    ensures r == OpenReturnedUrl <==> url != ""
    ensures r == SearchVideo <==> url == "" && Lower(intent) == WatchVideo
    ensures r == SearchMusic <==> url == "" && Lower(intent) == ListenMusic
    ensures r == OpenAsDomain <==> url == "" && Lower(intent) == OpenWebsite && '.' in command
    ensures r == SearchWeb <==>
              && url == ""
              && Lower(intent) != WatchVideo
              && Lower(intent) != ListenMusic
              && (Lower(intent) == OpenWebsite ==> '.' !in command)
  {
    var tag := Lower(intent);
    if url != "" then OpenReturnedUrl
    else if tag == WatchVideo then SearchVideo
    else if tag == ListenMusic then SearchMusic
    else if tag == OpenWebsite && '.' in command then OpenAsDomain
    else SearchWeb
  }

  /** The URL the direct-open rung uses: the text itself when it already
      begins with `http`, otherwise the text behind `https://`. */
  function DomainUrl(command: string): (r: string)
    ensures StartsWith(r, "http")
    ensures StartsWith(command, "http") ==> r == command
    ensures !StartsWith(command, "http") ==> r == Https + command
  {
    if StartsWith(command, "http") then command
    else
      StartsWithAppend(Https, command, "http");
      Https + command
  }

  /** What a rung opens and reports. */
  function Perform(route: Route, command: string, url: string, quote: Quoter): Action
  {
    match route
    case OpenReturnedUrl => Action(url, OpenedStatus + url)
    case SearchVideo => Action(VideoSearchPrefix + quote(command), VideoStatus + command)
    case SearchMusic => Action(MusicSearchPrefix + quote(command) + MusicSearchSuffix, MusicStatus + command)
    case OpenAsDomain => Action(DomainUrl(command), DomainStatus + DomainUrl(command))
    case SearchWeb => Action(WebSearchPrefix + quote(command), SearchStatus + command)
  }

  /** `execute_command` after the classifier has answered. */
  function ExecuteCommand(command: string, intent: string, url: string, quote: Quoter): (a: Action)
    ensures url != "" ==> a == Action(url, OpenedStatus + url)
    ensures url == "" && Lower(intent) == WatchVideo ==>
              a == Action(VideoSearchPrefix + quote(command), VideoStatus + command)
    ensures url == "" && Lower(intent) == ListenMusic ==>
              a == Action(MusicSearchPrefix + quote(command) + MusicSearchSuffix, MusicStatus + command)
    ensures url == "" && Lower(intent) == OpenWebsite && '.' in command ==>
              a.target == (if StartsWith(command, "http") then command else Https + command)
              && a.status == DomainStatus + a.target
    ensures url == "" && Lower(intent) == OpenWebsite && '.' !in command ==>
              a == Action(WebSearchPrefix + quote(command), SearchStatus + command)
    ensures url == "" && Lower(intent) !in {WatchVideo, ListenMusic, OpenWebsite} ==>
              a == Action(WebSearchPrefix + quote(command), SearchStatus + command)
  {
    Perform(ChooseRoute(command, intent, url), command, url, quote)
  }

  /** Two intents that differ only in the case of ASCII letters. */
  predicate SameIgnoringCase(x: string, y: string)
  {
    |x| == |y| && forall k :: 0 <= k < |x| ==> LowerChar(x[k]) == LowerChar(y[k])
  }

  /** The intent is lower-cased before every comparison, so its letter case
      never changes what is opened or reported. */
  lemma ExecuteCommandIgnoresIntentCase(command: string, i1: string, i2: string, url: string, quote: Quoter)
    requires SameIgnoringCase(i1, i2)
    ensures ExecuteCommand(command, i1, url, quote) == ExecuteCommand(command, i2, url, quote)
  {
  }

  /** Every rung opens an `http` URL, provided a returned URL has been
      normalised, as the extractor guarantees. */
  lemma ExecuteCommandOpensHttp(command: string, intent: string, url: string, quote: Quoter)
    requires IsNormalised(url)
    ensures StartsWith(ExecuteCommand(command, intent, url, quote).target, "http")
  {
  }

  /** The status message names what was opened on the two open rungs and
      the user's text on the three search rungs. */
  lemma ExecuteCommandStatusNamesTargetOrText(command: string, intent: string, url: string, quote: Quoter)
    ensures var a := ExecuteCommand(command, intent, url, quote);
      match ChooseRoute(command, intent, url)
      case OpenReturnedUrl => a.status == OpenedStatus + a.target
      case OpenAsDomain => a.status == DomainStatus + a.target
      case SearchVideo => a.status == VideoStatus + command
      case SearchMusic => a.status == MusicStatus + command
      case SearchWeb => a.status == SearchStatus + command
  {
  }
}
