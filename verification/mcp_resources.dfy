/**
 * What a server published, what of it may be read, and the bounded ring of its
 * notifications, for one server.
 */
module McpResources {
  import opened Texts
  import opened UriTemplates
  import opened Wrappers

  datatype Note = Note(name: string, params: string)

  /** An incoming notification frame; one without a method name is ignored. */
  datatype NoteFrame = NoteFrame(methodName: Option<string>, params: string)

  const NOTIFICATION_RING_CAP: nat := 200

  // ---- The ring ----

  function Named(frames: seq<NoteFrame>): seq<Note> {
    if frames == [] then []
    else
      var last := frames[|frames| - 1];
      Named(frames[..|frames| - 1]) + (if last.methodName.Some? then [Note(last.methodName.value, last.params)] else [])
  }

  function Newest(notes: seq<Note>): seq<Note> {
    if |notes| > NOTIFICATION_RING_CAP then notes[|notes| - NOTIFICATION_RING_CAP..] else notes
  }

  predicate Retracts(frames: seq<NoteFrame>) {
    exists i :: 0 <= i < |frames| && RetractsOne(frames[i])
  }

  predicate RetractsOne(f: NoteFrame) {
    f.methodName.Some? && "notifications/resources/" <= f.methodName.value
  }

  // ---- The allowlist ----

  /** The cache after a listing: what was there first, then each new URI once. */
  function Merged(cached: seq<string>, uris: seq<Option<string>>): seq<string> {
    if uris == [] then cached
    else
      var before := Merged(cached, uris[..|uris| - 1]);
      var last := uris[|uris| - 1];
      if last.Some? && last.value !in before then before + [last.value] else before
  }

  datatype Server = Server(ring: seq<Note>, resources: seq<string>, templates: seq<string>)

  const NEW_SERVER := Server([], [], [])

  /** A listing without a cursor starts the cache over; templates are replaced; a retraction clears both. */
  datatype Event =
    | Listed(continued: bool, uris: seq<Option<string>>)
    | ListedTemplates(templates: seq<string>)
    | Notified(frames: seq<NoteFrame>)

  function Next(s: Server, e: Event): Server {
    match e
    case Listed(continued, uris) => s.(resources := Merged(if continued then s.resources else [], uris))
    case ListedTemplates(templates) => s.(templates := templates)
    case Notified(frames) =>
      var kept := s.(ring := Newest(s.ring + Named(frames)));
      if Retracts(frames) then kept.(resources := [], templates := []) else kept
  }

  function After(events: seq<Event>): Server {
    if events == [] then NEW_SERVER else Next(After(events[..|events| - 1]), events[|events| - 1])
  }

  // ---- Which URIs may be read ----

  function LowerChar(c: char): char {
    if 'A' <= c <= 'Z' then (c as int + 32) as char else c
  }

  function Lowered(s: string): string {
    seq(|s|, i requires 0 <= i < |s| => LowerChar(s[i]))
  }

  const DANGEROUS: seq<string> := ["javascript:", "data:", "vbscript:", "blob:"]

  predicate IsDangerous(uri: string) {
    exists i :: 0 <= i < |DANGEROUS| && DANGEROUS[i] <= Lowered(Trimmed(uri))
  }

  function UpTo(s: string, separator: char): string {
    if s == "" || s[0] == separator then "" else [s[0]] + UpTo(s[1..], separator)
  }

  /** A host between two slashes and the next, other than this one. */
  predicate IsRemote(uri: string) {
    |uri| >= 7 && uri[5..7] == "//" &&
    var authority := UpTo(uri[7..], '/'); authority != "" && Lowered(authority) != "localhost"
  }

  /** The rule looks at the scheme after trimming and at the authority before it. */
  predicate FileRefused(uri: string, trusted: bool) {
    "file:" <= Lowered(Trimmed(uri)) && (!trusted || Find(uri, "..").Some? || IsRemote(uri))
  }

  function Allowed(s: Server, uri: string, trusted: bool): bool {
    && !IsDangerous(uri) && !FileRefused(uri, trusted)
    && (uri in s.resources || exists i :: 0 <= i < |s.templates| && Matches(uri, s.templates[i]))
  }

  // ---- The rules, spelled out ----

  /** The text starts with the prefix, whose letters may be written large. */
  predicate StartsAnyCase(s: string, prefix: string) {
    |prefix| <= |s| && forall i :: 0 <= i < |prefix| ==>
      s[i] == prefix[i] || ('a' <= prefix[i] <= 'z' && s[i] as int + 32 == prefix[i] as int)
  }

  predicate NoCapitals(s: string) {
    forall i :: 0 <= i < |s| ==> !('A' <= s[i] <= 'Z')
  }

  lemma LoweredStarts(s: string, prefix: string)
    requires NoCapitals(prefix)
    ensures prefix <= Lowered(s) <==> StartsAnyCase(s, prefix)
  {
    if |prefix| <= |s| {
      forall i | 0 <= i < |prefix|
        ensures Lowered(s)[i] == prefix[i] <==>
          s[i] == prefix[i] || ('a' <= prefix[i] <= 'z' && s[i] as int + 32 == prefix[i] as int)
      {
        assert Lowered(s)[i] == LowerChar(s[i]);
      }
      assert prefix <= Lowered(s) <==> forall i :: 0 <= i < |prefix| ==> Lowered(s)[i] == prefix[i];
    }
  }

  /** The four schemes that are never read, whatever the server published. */
  lemma DangerousIff(uri: string)
    ensures IsDangerous(uri) <==>
      var s := Trimmed(uri);
      || StartsAnyCase(s, "javascript:") || StartsAnyCase(s, "data:")
      || StartsAnyCase(s, "vbscript:") || StartsAnyCase(s, "blob:")
  {
    var s := Trimmed(uri);
    LoweredStarts(s, "javascript:");
    LoweredStarts(s, "data:");
    LoweredStarts(s, "vbscript:");
    LoweredStarts(s, "blob:");
    FourSchemes(Lowered(s));
  }

  lemma FourSchemes(s: string)
    ensures (exists i :: 0 <= i < |DANGEROUS| && DANGEROUS[i] <= s) <==>
      "javascript:" <= s || "data:" <= s || "vbscript:" <= s || "blob:" <= s
  {
    assert DANGEROUS[0] == "javascript:" && DANGEROUS[1] == "data:";
    assert DANGEROUS[2] == "vbscript:" && DANGEROUS[3] == "blob:";
  }

  lemma {:induction false} UpToIs(s: string, separator: char)
    ensures
      var front := UpTo(s, separator);
      && front <= s && !HasChar(front, separator)
      && (|front| < |s| ==> s[|front|] == separator)
  {
    if s != "" && s[0] != separator {
      UpToIs(s[1..], separator);
      var front := UpTo(s[1..], separator);
      assert UpTo(s, separator) == [s[0]] + front;
      assert forall i :: 0 < i < |[s[0]] + front| ==> ([s[0]] + front)[i] == front[i - 1];
    }
  }

  /** A host named behind two slashes, up to the next slash or the end, that is not this one. */
  predicate NamesHost(uri: string, n: nat) {
    && 0 < n && 7 + n <= |uri| && uri[5] == '/' && uri[6] == '/'
    && (forall i :: 7 <= i < 7 + n ==> uri[i] != '/') && (7 + n < |uri| ==> uri[7 + n] == '/')
    && !(n == 9 && StartsAnyCase(uri[7..], "localhost"))
  }

  predicate NamesAHost(uri: string) {
    exists n :: 0 < n <= |uri| && NamesHost(uri, n)
  }

  /**
   * A file is refused exactly to an untrusted server, or if its URI has two dots
   * in a row or names a host other than localhost.
   */
  lemma FileRefusedIff(uri: string, trusted: bool)
    ensures FileRefused(uri, trusted) <==>
      && StartsAnyCase(Trimmed(uri), "file:")
      && (!trusted || !NoDots(uri) || NamesAHost(uri))
  {
    LoweredStarts(Trimmed(uri), "file:");
    FindsDots(uri);
    HostIff(uri);
  }

  lemma HostIff(uri: string)
    ensures IsRemote(uri) <==> NamesAHost(uri)
  {
    if |uri| >= 7 {
      var authority := UpTo(uri[7..], '/');
      UpToIs(uri[7..], '/');
      AuthorityIs(uri, authority);
      assert uri[5..7] == "//" <==> uri[5] == '/' && uri[6] == '/';
    }
  }

  lemma AuthorityIs(uri: string, authority: string)
    requires |uri| >= 7 && authority <= uri[7..] && !HasChar(authority, '/')
    requires |authority| < |uri[7..]| ==> uri[7..][|authority|] == '/'
    ensures forall n: nat :: NamesHost(uri, n) ==> n == |authority|
    ensures NamesHost(uri, |authority|) <==>
      uri[5] == '/' && uri[6] == '/' && authority != "" && Lowered(authority) != "localhost"
  {
    assert forall i :: 0 <= i < |authority| ==> uri[7 + i] == uri[7..][i] == authority[i];
    assert 7 + |authority| < |uri| ==> uri[7 + |authority|] == uri[7..][|authority|] == '/';
    assert forall n: nat :: NamesHost(uri, n) ==> !(n < |authority|) && !(n > |authority|);
    LoweredStarts(authority, "localhost");
    assert Lowered(authority) == "localhost" <==> |authority| == 9 && "localhost" <= Lowered(authority);
  }

  // ---- What the events say was published ----

  /** A listing from the start and a retraction make the server forget what it listed. */
  predicate ForgetsUris(e: Event) {
    (e.Listed? && !e.continued) || (e.Notified? && Retracts(e.frames))
  }

  predicate ForgetsTemplates(e: Event) {
    e.ListedTemplates? || (e.Notified? && Retracts(e.frames))
  }

  /** Some listing contains the URI, and nothing since made the server forget it. */
  predicate PublishedAt(events: seq<Event>, i: nat, uri: string) {
    && i < |events| && events[i].Listed? && Some(uri) in events[i].uris
    && forall j :: i < j < |events| ==> !ForgetsUris(events[j])
  }

  predicate Published(events: seq<Event>, uri: string) {
    exists i :: 0 <= i < |events| && PublishedAt(events, i, uri)
  }

  predicate TemplateAt(events: seq<Event>, i: nat, template: string) {
    && i < |events| && events[i].ListedTemplates? && template in events[i].templates
    && forall j :: i < j < |events| ==> !ForgetsTemplates(events[j])
  }

  predicate PublishedTemplate(events: seq<Event>, template: string) {
    exists i :: 0 <= i < |events| && TemplateAt(events, i, template)
  }

  lemma PublishedSnoc(events: seq<Event>, e: Event, uri: string)
    ensures Published(events + [e], uri) <==>
      (e.Listed? && Some(uri) in e.uris) || (Published(events, uri) && !ForgetsUris(e))
  {
    var all := events + [e];
    if Published(all, uri) {
      var i :| 0 <= i < |all| && PublishedAt(all, i, uri);
      if i < |events| {
        assert all[|events|] == e && !ForgetsUris(all[|events|]);
        assert forall j :: i < j < |events| ==> events[j] == all[j];
        assert PublishedAt(events, i, uri);
      }
    }
    if Published(events, uri) && !ForgetsUris(e) {
      var i :| 0 <= i < |events| && PublishedAt(events, i, uri);
      assert PublishedAt(all, i, uri);
    }
    if e.Listed? && Some(uri) in e.uris {
      assert PublishedAt(all, |events|, uri);
    }
  }

  lemma TemplateSnoc(events: seq<Event>, e: Event, template: string)
    ensures PublishedTemplate(events + [e], template) <==>
      (e.ListedTemplates? && template in e.templates) || (PublishedTemplate(events, template) && !ForgetsTemplates(e))
  {
    var all := events + [e];
    if PublishedTemplate(all, template) {
      var i :| 0 <= i < |all| && TemplateAt(all, i, template);
      if i < |events| {
        assert all[|events|] == e && !ForgetsTemplates(all[|events|]);
        assert forall j :: i < j < |events| ==> events[j] == all[j];
        assert TemplateAt(events, i, template);
      }
    }
    if PublishedTemplate(events, template) && !ForgetsTemplates(e) {
      var i :| 0 <= i < |events| && TemplateAt(events, i, template);
      assert TemplateAt(all, i, template);
    }
    if e.ListedTemplates? && template in e.templates {
      assert TemplateAt(all, |events|, template);
    }
  }

  predicate Distinct(s: seq<string>) {
    forall i, j :: 0 <= i < j < |s| ==> s[i] != s[j]
  }

  lemma {:induction false} MergedMembers(cached: seq<string>, uris: seq<Option<string>>)
    requires Distinct(cached)
    ensures Distinct(Merged(cached, uris))
    ensures forall uri :: uri in Merged(cached, uris) <==> uri in cached || Some(uri) in uris
  {
    if uris != [] {
      MergedMembers(cached, uris[..|uris| - 1]);
      assert uris == uris[..|uris| - 1] + [uris[|uris| - 1]];
    }
  }

  /** One event's effect on both lists, as members. */
  lemma NextMembers(s: Server, e: Event)
    requires Distinct(s.resources)
    ensures Distinct(Next(s, e).resources)
    ensures forall uri :: uri in Next(s, e).resources <==>
      (e.Listed? && Some(uri) in e.uris) || (uri in s.resources && !ForgetsUris(e))
    ensures forall template :: template in Next(s, e).templates <==>
      (e.ListedTemplates? && template in e.templates) || (template in s.templates && !ForgetsTemplates(e))
  {
    if e.Listed? {
      MergedMembers(if e.continued then s.resources else [], e.uris);
    }
  }

  /** The cache holds each published URI once and nothing else, over any history of listings and notifications. */
  lemma {:induction false} CacheIsPublished(events: seq<Event>)
    ensures Distinct(After(events).resources)
    ensures forall uri :: uri in After(events).resources <==> Published(events, uri)
    ensures forall template :: template in After(events).templates <==> PublishedTemplate(events, template)
  {
    if events != [] {
      var before, e := events[..|events| - 1], events[|events| - 1];
      assert events == before + [e];
      CacheIsPublished(before);
      NextMembers(After(before), e);
      forall uri ensures uri in After(events).resources <==> Published(events, uri) {
        PublishedSnoc(before, e, uri);
      }
      forall template ensures template in After(events).templates <==> PublishedTemplate(events, template) {
        TemplateSnoc(before, e, template);
      }
    }
  }

  /**
   * A URI may be read exactly when its scheme is not refused and the server
   * published it, or published a template of which it is a leftmost expansion
   * without `..`, and has not retracted or replaced that since.
   */
  lemma AllowedIffPublished(events: seq<Event>, uri: string, trusted: bool)
    ensures Allowed(After(events), uri, trusted) <==>
      && !IsDangerous(uri) && !FileRefused(uri, trusted)
      && (Published(events, uri) ||
          (Find(uri, "..").None? && exists template: string, values: seq<string> ::
             PublishedTemplate(events, template) && IsExpansion(uri, template, values)))
  {
    var s := After(events);
    CacheIsPublished(events);
    forall template: string
      ensures Matches(uri, template) <==>
        Find(uri, "..").None? && exists values: seq<string> :: IsExpansion(uri, template, values)
    {
      MatchesIffLeftmost(uri, template);
    }
    forall template | template in s.templates && Matches(uri, template)
      ensures exists i :: 0 <= i < |s.templates| && Matches(uri, s.templates[i])
    {
      var i :| 0 <= i < |s.templates| && s.templates[i] == template;
    }
  }

  lemma {:induction false} NothingBeforeARetraction(events: seq<Event>, frames: seq<NoteFrame>, later: seq<Event>)
    requires Retracts(frames)
    ensures
      var s := After(events + [Notified(frames)] + later);
      s.resources == After(later).resources && s.templates == After(later).templates
    decreases |later|
  {
    var all := events + [Notified(frames)] + later;
    if later == [] {
      assert all[..|all| - 1] == events;
    } else {
      NothingBeforeARetraction(events, frames, later[..|later| - 1]);
      assert all[..|all| - 1] == events + [Notified(frames)] + later[..|later| - 1];
    }
  }

  lemma {:induction false} NotesPublishNothing(later: seq<Event>)
    requires forall i :: 0 <= i < |later| ==> later[i].Notified?
    ensures After(later).resources == [] && After(later).templates == []
  {
    if later != [] {
      NotesPublishNothing(later[..|later| - 1]);
    }
  }

  /**
   * After a retraction only what the server publishes from then on may be read,
   * as if it had published nothing before: notifications alone open nothing.
   */
  lemma RetractionClosesReads(
    events: seq<Event>, frames: seq<NoteFrame>, later: seq<Event>, uri: string, trusted: bool)
    requires Retracts(frames)
    ensures Allowed(After(events + [Notified(frames)] + later), uri, trusted) <==>
            Allowed(After(later), uri, trusted)
    ensures (forall i :: 0 <= i < |later| ==> later[i].Notified?) ==>
            !Allowed(After(events + [Notified(frames)] + later), uri, trusted)
  {
    NothingBeforeARetraction(events, frames, later);
    if forall i :: 0 <= i < |later| ==> later[i].Notified? {
      NotesPublishNothing(later);
    }
  }

  // ---- The ring over a history ----

  function AllNotes(events: seq<Event>): seq<Note> {
    if events == [] then []
    else
      var last := events[|events| - 1];
      AllNotes(events[..|events| - 1]) + (if last.Notified? then Named(last.frames) else [])
  }

  lemma NewestOfNewest(a: seq<Note>, b: seq<Note>)
    ensures Newest(Newest(a) + b) == Newest(a + b)
  {
  }

  /** The ring is always the newest 200 of all notifications ever recorded, in order. */
  lemma {:induction false} RingIsNewest(events: seq<Event>)
    ensures After(events).ring == Newest(AllNotes(events))
  {
    if events != [] {
      var before := events[..|events| - 1];
      RingIsNewest(before);
      var e := events[|events| - 1];
      if e.Notified? {
        NewestOfNewest(AllNotes(before), Named(e.frames));
      } else {
        assert AllNotes(before) + [] == AllNotes(before);
      }
    }
  }

  /** The ring never holds more than 200, and with more recorded the last 200 of them. */
  lemma RingHolds(events: seq<Event>)
    ensures
      var ring, all := After(events).ring, AllNotes(events);
      |ring| == (if |all| > 200 then 200 else |all|) && ring == all[|all| - |ring|..]
  {
    RingIsNewest(events);
  }

  /** Every frame with a method is recorded with it and its parameters, in order, and no other. */
  lemma {:induction false} NotesJoin(a: seq<NoteFrame>, b: seq<NoteFrame>, f: NoteFrame)
    ensures Named(a + b) == Named(a) + Named(b)
    ensures Named([f]) == if f.methodName.Some? then [Note(f.methodName.value, f.params)] else []
  {
    assert [f][..0] == [];
    if b == [] {
      assert a + b == a && Named(a) + [] == Named(a);
    } else {
      NotesJoin(a, b[..|b| - 1], f);
      assert (a + b)[..|a + b| - 1] == a + b[..|b| - 1];
    }
  }

  /** A retraction is any notification about resources. */
  lemma RetractsIff(frames: seq<NoteFrame>)
    ensures Retracts(frames) <==>
      exists i, rest :: 0 <= i < |frames| && frames[i].methodName == Some("notifications/resources/" + rest)
  {
    if i :| 0 <= i < |frames| && RetractsOne(frames[i]) {
      var name := frames[i].methodName.value;
      assert name == "notifications/resources/" + name[|"notifications/resources/"|..];
    }
    if i, rest :| 0 <= i < |frames| && frames[i].methodName == Some("notifications/resources/" + rest) {
      assert RetractsOne(frames[i]);
    }
  }

  class McpServer {
    var server: Server

    constructor ()
      ensures server == NEW_SERVER
    {
      server := NEW_SERVER;
    }

    method RecordNotifications(frames: seq<NoteFrame>)
      modifies this
      ensures server == Next(old(server), Notified(frames))
    {
      var ring := server.ring;
      var retracted := false;
      for i := 0 to |frames|
        invariant ring == server.ring + Named(frames[..i])
        invariant retracted <==> Retracts(frames[..i])
        invariant server == old(server)
      {
        assert frames[..i + 1][..i] == frames[..i];
        RetractsSnoc(frames[..i], frames[i]);
        assert frames[..i + 1] == frames[..i] + [frames[i]];
        if frames[i].methodName.Some? {
          if "notifications/resources/" <= frames[i].methodName.value { retracted := true; }
          ring := ring + [Note(frames[i].methodName.value, frames[i].params)];
        }
      }
      assert frames[..|frames|] == frames;
      if |ring| > NOTIFICATION_RING_CAP {
        ring := ring[|ring| - NOTIFICATION_RING_CAP..];
      }
      server := server.(ring := ring);
      if retracted {
        server := server.(resources := [], templates := []);
      }
    }

    static lemma RetractsSnoc(frames: seq<NoteFrame>, f: NoteFrame)
      ensures Retracts(frames + [f]) <==> Retracts(frames) || RetractsOne(f)
    {
      if i :| 0 <= i < |frames| && RetractsOne(frames[i]) {
        assert (frames + [f])[i] == frames[i];
      }
      assert (frames + [f])[|frames|] == f;
    }

    method ListResources(continued: bool, uris: seq<Option<string>>)
      modifies this
      ensures server == Next(old(server), Listed(continued, uris))
    {
      var entry := server.resources;
      if !continued { entry := []; }
      ghost var start := entry;
      for i := 0 to |uris|
        invariant entry == Merged(start, uris[..i])
      {
        assert uris[..i + 1][..i] == uris[..i];
        if uris[i].Some? && uris[i].value !in entry {
          entry := entry + [uris[i].value];
        }
      }
      assert uris[..|uris|] == uris;
      server := server.(resources := entry);
    }

    method AssertResourceUriAllowed(uri: string, trusted: bool) returns (allowed: bool)
      ensures allowed == Allowed(server, uri, trusted)
    {
      if IsDangerous(uri) || FileRefused(uri, trusted) { return false; }
      if uri in server.resources { return true; }
      for i := 0 to |server.templates|
        invariant forall k :: 0 <= k < i ==> !Matches(uri, server.templates[k])
      {
        var matches := UriMatchesTemplate(uri, server.templates[i]);
        if matches { return true; }
      }
      return false;
    }
  }
}
