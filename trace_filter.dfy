/**
 * `DefaultTraceFilter` (src/trace.filter.ts): keeps a segment unless its
 * request's user agent names the AWS SDK for JavaScript.
 */
module TraceFilter {
  import opened Wrappers
  import opened Strings
  import opened Document

  const SDK_AGENT := "aws-sdk-js"

  /** The user agent the document records, if it has an http block with a request that carries one. */
  function UserAgentOf(seg: Segment): Option<string> {
    if seg.http.Some? && seg.http.value.request.Some? then seg.http.value.request.value.user_agent else None
  }

  /** `doFilter(trace)`: `!user_agent?.includes('aws-sdk-js')`. */
  function DoFilter(seg: Segment): (keep: bool)
    ensures !keep <==> exists i :: UserAgentOf(seg).Some? && OccursAt(UserAgentOf(seg).value, SDK_AGENT, i)
  {
    match UserAgentOf(seg)
    case None => true
    case Some(ua) => IncludesIff(ua, SDK_AGENT); !Includes(ua, SDK_AGENT)
  }

  /** A segment without an http block, a request or a user agent is kept. */
  lemma KeptWithoutAgent(seg: Segment)
    requires seg.http.None? || seg.http.value.request.None? || seg.http.value.request.value.user_agent.None?
    ensures DoFilter(seg)
  {
  }

  /** Only the user agent is looked at: two segments with the same one get the same verdict. */
  lemma OnlyUserAgent(a: Segment, b: Segment)
    requires UserAgentOf(a) == UserAgentOf(b)
    ensures DoFilter(a) == DoFilter(b)
  {
  }

  /** The SDK's name excludes the segment wherever it occurs in the agent: at the start, in the middle or at the end. */
  lemma {:induction false} DroppedAnywhere(seg: Segment, before: string, after: string)
    requires UserAgentOf(seg) == Some(before + SDK_AGENT + after)
    ensures !DoFilter(seg)
  {
    IncludesInfix(before, SDK_AGENT, after);
    IncludesIff(before + SDK_AGENT + after, SDK_AGENT);
  }
}
