/**
 * What the transcript tool promises on each of its paths: which status events
 * it emits, which provider queries it makes, and what it returns.
 */
module YouTubeTranscriptProperties {
  import opened Wrappers
  import opened YouTubeTranscript

  /** The extracted id is the 11 characters after the leftmost match of the pattern. */
  lemma VideoIdIsLeftmost(url: string, id: string)
    ensures ExtractVideoId(url) == Some(id) <==>
            exists i: nat :: MatchesAt(url, i) && (forall j :: 0 <= j < i ==> !MatchesAt(url, j)) && id == url[i + 2..i + 13]
  {
  }

  /** The empty URL is rejected: one error event, no provider call, and "" returned. */
  lemma EmptyUrlRejected(transcript: (string, string) -> Option<string>)
    ensures Fetched("", transcript) == Run([WrongUrl("")], [], "")
  {
  }

  /** A rejected URL: one error event, no provider call, and "" returned. */
  lemma WrongUrlRun(url: string, transcript: (string, string) -> Option<string>)
    requires !ValidUrl(url)
    ensures Fetched(url, transcript) == Run([StatusData(Error, "Wrong URL: " + url, true)], [], "")
  {
  }

  /** A URL without a video id: one error event, no provider call, and "" returned. */
  lemma NoVideoIdRun(url: string, transcript: (string, string) -> Option<string>)
    requires ValidUrl(url) && forall i :: !MatchesAt(url, i)
    ensures Fetched(url, transcript) ==
            Run([StatusData(Error, "Cannot extract video ID from URL: " + url, true)], [], "")
  {
  }

  /**
   * The first language that succeeds wins: exactly k + 1 calls, for the first k + 1
   * languages in order; an in-progress then a complete event; that language's text.
   */
  lemma FirstSuccessWins(url: string, transcript: (string, string) -> Option<string>, id: string, k: nat)
    requires ValidUrl(url) && ExtractVideoId(url) == Some(id)
    requires k < |Languages| && transcript(id, Languages[k]).Some?
    requires forall j :: 0 <= j < k ==> transcript(id, Languages[j]).None?
    ensures |Fetched(url, transcript).queries| == k + 1
    ensures Fetched(url, transcript) ==
            Run([StatusData(InProgress, "Fetching text from URL", false),
                 StatusData(Complete, "Text retrieved successfully. Please summarize it concisely for the user.", true)],
                Queries(id, Languages[..k + 1]),
                transcript(id, Languages[k]).value)
  {
  }

  /**
   * Every language fails: five calls, one per language in order; an in-progress
   * event, then one error event with the fixed not-found text; "" returned.
   */
  lemma AllLanguagesFail(url: string, transcript: (string, string) -> Option<string>, id: string)
    requires ValidUrl(url) && ExtractVideoId(url) == Some(id)
    requires forall j :: 0 <= j < |Languages| ==> transcript(id, Languages[j]).None?
    ensures Fetched(url, transcript).queries ==
            [Query(id, "pt-BR"), Query(id, "pt"), Query(id, "pt-BR_auto"), Query(id, "en"), Query(id, "en_auto")]
    ensures Fetched(url, transcript) ==
            Run([StatusData(InProgress, "Fetching text from URL", false),
                 StatusData(Error,
                   "Text not found or unavailable in the specified languages. Error: " +
                   "Text not found in any of the specified languages." +
                   ". Please verify that the content is available and is not restricted.", true)],
                Queries(id, Languages),
                "")
  {
  }

  /**
   * On every path the queries ask for the extracted id in the languages in their
   * fixed order, and nothing is asked after a success.
   */
  lemma QueriesFollowOrder(url: string, transcript: (string, string) -> Option<string>)
    ensures var run := Fetched(url, transcript);
            |run.queries| <= |Languages| &&
            (forall j :: 0 <= j < |run.queries| ==> run.queries[j].language == Languages[j]) &&
            (forall j :: 0 <= j < |run.queries| ==> Some(run.queries[j].videoId) == ExtractVideoId(url)) &&
            (forall j :: 0 <= j < |run.queries| - 1 ==> transcript(run.queries[j].videoId, run.queries[j].language).None?)
  {
  }

  /**
   * Every path emits one or two events; only the last one is done, and it is the
   * complete event exactly when the text came from the provider.
   */
  lemma EventsEndDone(url: string, transcript: (string, string) -> Option<string>)
    ensures var run := Fetched(url, transcript);
            1 <= |run.events| <= 2 &&
            run.events[|run.events| - 1].done &&
            (forall j :: 0 <= j < |run.events| - 1 ==> !run.events[j].done) &&
            (run.events[|run.events| - 1].status == Complete <==>
               exists q :: q in run.queries && transcript(q.videoId, q.language) == Some(run.text)) &&
            (run.events[|run.events| - 1].status != Complete ==> run.text == "")
  {
    var run := Fetched(url, transcript);
    if ValidUrl(url) && ExtractVideoId(url).Some? {
      var id := ExtractVideoId(url).value;
      var k := FirstHit(transcript, id, Languages);
      if k < |Languages| {
        assert run.queries[k] == Query(id, Languages[k]);
      } else {
        forall q | q in run.queries ensures transcript(q.videoId, q.language).None? {
          var j :| 0 <= j < |run.queries| && run.queries[j] == q;
        }
      }
    }
  }
}
