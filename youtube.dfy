/**
 * The transcript tool: checks a YouTube URL, extracts the video id, and asks a
 * transcript provider for it language by language, reporting status events to
 * the host as it goes.
 *
 * The host's callback is a `Callback` object that records what it receives.
 * The transcript library together with its text formatter is a
 * `TranscriptProvider` object: a fixed function from video id and language to
 * the formatted transcript, or to `None` when the library raises. The provider
 * records every query it is asked.
 */
module YouTubeTranscript {
  import opened Wrappers

  // ------------------------------------------------------------------
  // Status events
  // ------------------------------------------------------------------

  datatype Status = InProgress | Complete | Error
  {
    /** The status as the host receives it. */
    function Name(): string
    {
      match this
      case InProgress => "in_progress"
      case Complete => "complete"
      case Error => "error"
    }
  }

  /** The `data` of a status notification. */
  datatype StatusData = StatusData(status: Status, description: string, done: bool)

  /** What the host's callback receives: `{"type": kind, "data": data}`. */
  datatype Notification = Notification(kind: string, data: StatusData)

  /** The host's `__event_emitter__` callback, recording every notification it is given. */
  class Callback {
    var received: seq<Notification>

    constructor ()
      ensures received == []
    {
      received := [];
    }

    method Call(n: Notification)
      modifies this
      ensures received == old(received) + [n]
    {
      received := received + [n];
    }
  }

  /** `EventEmitter`: wraps the callback, which may be absent. */
  class EventEmitter {
    const eventEmitter: Callback?

    constructor (eventEmitter: Callback?)
      ensures this.eventEmitter == eventEmitter
    {
      this.eventEmitter := eventEmitter;
    }

    /** `emit`: delivers one status notification when there is a callback, and nothing otherwise. */
    method Emit(description: string := "Unknown State", status: Status := InProgress, done: bool := false)
      modifies eventEmitter
      ensures eventEmitter != null ==>
                eventEmitter.received ==
                old(eventEmitter.received) + [Notification("status", StatusData(status, description, done))]
    {
      if eventEmitter != null {
        eventEmitter.Call(Notification("status", StatusData(status, description, done)));
      }
    }
  }

  // ------------------------------------------------------------------
  // Transcript provider
  // ------------------------------------------------------------------

  /** One call of the transcript library: the video id and the single language asked for. */
  datatype Query = Query(videoId: string, language: string)

  /** `YouTubeTranscriptApi.get_transcript` followed by `TextFormatter.format_transcript`. */
  class TranscriptProvider {
    const transcript: (string, string) -> Option<string>
    var queries: seq<Query>

    constructor (transcript: (string, string) -> Option<string>)
      ensures this.transcript == transcript && queries == []
    {
      this.transcript := transcript;
      queries := [];
    }

    /** The formatted transcript of the video in that language, or `None` when the library raises. */
    method Fetch(videoId: string, language: string) returns (r: Option<string>)
      modifies this
      ensures queries == old(queries) + [Query(videoId, language)]
      ensures r == transcript(videoId, language)
    {
      queries := queries + [Query(videoId, language)];
      r := transcript(videoId, language);
    }
  }

  // ------------------------------------------------------------------
  // URL check and video id
  // ------------------------------------------------------------------

  /** `sub` occurs in `s` at position `i`. */
  predicate OccursAt(s: string, sub: string, i: int)
  {
    0 <= i && i + |sub| <= |s| && s[i..i + |sub|] == sub
  }

  /** Python's `sub in s`. */
  predicate Contains(s: string, sub: string)
  {
    exists i | 0 <= i <= |s| - |sub| :: OccursAt(s, sub, i)
  }

  /** The check `not url or "youtube.com" not in url` fails. */
  predicate ValidUrl(url: string)
  {
    url != "" && Contains(url, "youtube.com")
  }

  /** A character of the class `[A-Za-z0-9_-]`. */
  predicate IdChar(c: char)
  {
    ('A' <= c <= 'Z') || ('a' <= c <= 'z') || ('0' <= c <= '9') || c == '_' || c == '-'
  }

  /** The pattern `v=([A-Za-z0-9_-]{11})` matches at position `i`. */
  predicate MatchesAt(url: string, i: nat)
  {
    i + 13 <= |url| && url[i] == 'v' && url[i + 1] == '=' &&
    forall k :: i + 2 <= k < i + 13 ==> IdChar(url[k])
  }

  /** The leftmost position at or after `from` where the pattern matches, as `re.search` finds it. */
  function SearchFrom(url: string, from: nat): (r: Option<nat>)
    decreases |url| - from
    ensures r.Some? ==> from <= r.value && MatchesAt(url, r.value)
    ensures r.Some? ==> forall j :: from <= j < r.value ==> !MatchesAt(url, j)
    ensures r.None? ==> forall j :: from <= j ==> !MatchesAt(url, j)
  {
    if from + 13 > |url| then None
    else if MatchesAt(url, from) then Some(from)
    else SearchFrom(url, from + 1)
  }

  /**
   * `re.search(r"v=([A-Za-z0-9_-]{11})", url).group(1)`: the 11 characters after
   * the leftmost match, or `None` when the pattern matches nowhere.
   */
  function ExtractVideoId(url: string): (id: Option<string>)
    ensures id.Some? ==> |id.value| == 11 && forall k :: 0 <= k < 11 ==> IdChar(id.value[k])
    ensures id.Some? <==> exists i :: MatchesAt(url, i)
  {
    match SearchFrom(url, 0)
    case None => None
    case Some(i) => Some(url[i + 2..i + 13])
  }

  // ------------------------------------------------------------------
  // Language fallback and the whole tool
  // ------------------------------------------------------------------

  /** The languages tried, in order. */
  const Languages: seq<string> := ["pt-BR", "pt", "pt-BR_auto", "en", "en_auto"]

  /** The message of the exception raised when every language failed. */
  const NotFoundMessage: string := "Text not found in any of the specified languages."

  /** The index of the first language whose transcript is found, or the number of languages. */
  function FirstHit(transcript: (string, string) -> Option<string>, videoId: string, langs: seq<string>): (k: nat)
    ensures k <= |langs|
    ensures forall j :: 0 <= j < k ==> transcript(videoId, langs[j]).None?
    ensures k < |langs| ==> transcript(videoId, langs[k]).Some?
  {
    if langs == [] then 0
    else if transcript(videoId, langs[0]).Some? then 0
    else 1 + FirstHit(transcript, videoId, langs[1..])
  }

  /** The queries asking for one video in each of the given languages, in order. */
  function Queries(videoId: string, langs: seq<string>): seq<Query>
  {
    seq(|langs|, j requires 0 <= j < |langs| => Query(videoId, langs[j]))
  }

  lemma QueriesStep(videoId: string, langs: seq<string>, i: nat)
    requires i < |langs|
    ensures Queries(videoId, langs[..i + 1]) == Queries(videoId, langs[..i]) + [Query(videoId, langs[i])]
  {
  }

  lemma FirstHitIs(transcript: (string, string) -> Option<string>, videoId: string, langs: seq<string>, i: nat)
    requires i <= |langs|
    requires forall j :: 0 <= j < i ==> transcript(videoId, langs[j]).None?
    requires i < |langs| ==> transcript(videoId, langs[i]).Some?
    ensures FirstHit(transcript, videoId, langs) == i
  {
  }

  /** The status events of each path. */
  function WrongUrl(url: string): StatusData { StatusData(Error, "Wrong URL: " + url, true) }

  function NoVideoId(url: string): StatusData { StatusData(Error, "Cannot extract video ID from URL: " + url, true) }

  const Fetching: StatusData := StatusData(InProgress, "Fetching text from URL", false)

  const Retrieved: StatusData :=
    StatusData(Complete, "Text retrieved successfully. Please summarize it concisely for the user.", true)

  const NotFound: StatusData :=
    StatusData(Error, "Text not found or unavailable in the specified languages. Error: " + NotFoundMessage +
                      ". Please verify that the content is available and is not restricted.", true)

  /** One run of the tool: the status events, the provider queries, and the returned text. */
  datatype Run = Run(events: seq<StatusData>, queries: seq<Query>, text: string)

  /** What `get_text_from_url` does for a URL, given the transcripts the provider has. */
  function Fetched(url: string, transcript: (string, string) -> Option<string>): Run
  {
    if !ValidUrl(url) then Run([WrongUrl(url)], [], "")
    else match ExtractVideoId(url)
      case None => Run([NoVideoId(url)], [], "")
      case Some(id) =>
        var k := FirstHit(transcript, id, Languages);
        if k < |Languages| then
          Run([Fetching, Retrieved], Queries(id, Languages[..k + 1]), transcript(id, Languages[k]).value)
        else
          Run([Fetching, NotFound], Queries(id, Languages), "")
  }

  /** The notifications a callback receives for a sequence of status events. */
  function Delivered(events: seq<StatusData>): seq<Notification>
  {
    seq(|events|, j requires 0 <= j < |events| => Notification("status", events[j]))
  }

  /**
   * The `for`/`else` loop of `get_text_from_url`: asks for each language in turn,
   * stops at the first success after emitting the complete event, and reports
   * whether any language succeeded.
   */
  method TryLanguages(emitter: EventEmitter, provider: TranscriptProvider, videoId: string)
    returns (text: string, found: bool)
    modifies emitter.eventEmitter, provider
    ensures var k := FirstHit(provider.transcript, videoId, Languages);
            && found == (k < |Languages|)
            && text == (if found then provider.transcript(videoId, Languages[k]).value else "Text not found")
            && provider.queries == old(provider.queries) + Queries(videoId, Languages[..if found then k + 1 else k])
    ensures emitter.eventEmitter != null ==>
              emitter.eventEmitter.received ==
              old(emitter.eventEmitter.received) + (if found then [Notification("status", Retrieved)] else [])
  {
    text := "Text not found";
    found := false;
    var i := 0;
    while i < |Languages|
      invariant 0 <= i <= |Languages|
      invariant forall j :: 0 <= j < i ==> provider.transcript(videoId, Languages[j]).None?
      invariant provider.queries == old(provider.queries) + Queries(videoId, Languages[..i])
      invariant emitter.eventEmitter != null ==> emitter.eventEmitter.received == old(emitter.eventEmitter.received)
    {
      var transcriptText := provider.Fetch(videoId, Languages[i]);
      QueriesStep(videoId, Languages, i);
      if transcriptText.Some? {
        FirstHitIs(provider.transcript, videoId, Languages, i);
        text := transcriptText.value;
        emitter.Emit(
          status := Complete,
          description := "Text retrieved successfully. Please summarize it concisely for the user.",
          done := true);
        found := true;
        break;
      }
      i := i + 1;
    }
    if !found {
      FirstHitIs(provider.transcript, videoId, Languages, i);
    }
  }

  /** `Tools.get_text_from_url`. */
  method GetTextFromUrl(url: string, eventEmitter: Callback?, provider: TranscriptProvider) returns (text: string)
    modifies eventEmitter, provider
    ensures text == Fetched(url, provider.transcript).text
    ensures provider.queries == old(provider.queries) + Fetched(url, provider.transcript).queries
    ensures eventEmitter != null ==>
              eventEmitter.received == old(eventEmitter.received) + Delivered(Fetched(url, provider.transcript).events)
  {
    var emitter := new EventEmitter(eventEmitter);

    if url == "" || !Contains(url, "youtube.com") {
      emitter.Emit(status := Error, description := "Wrong URL: " + url, done := true);
      assert provider.queries == old(provider.queries) + [];
      return "";
    }

    var videoIdMatch := ExtractVideoId(url);
    if videoIdMatch.None? {
      emitter.Emit(status := Error, description := "Cannot extract video ID from URL: " + url, done := true);
      assert provider.queries == old(provider.queries) + [];
      return "";
    }
    var videoId := videoIdMatch.value;

    emitter.Emit("Fetching text from URL");

    var found;
    text, found := TryLanguages(emitter, provider, videoId);
    if !found {
      assert Languages[..|Languages|] == Languages;
      emitter.Emit(
        status := Error,
        description := "Text not found or unavailable in the specified languages. Error: " + NotFoundMessage +
                       ". Please verify that the content is available and is not restricted.",
        done := true);
      return "";
    }
  }
}
