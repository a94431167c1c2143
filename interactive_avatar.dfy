/**
 * The current revision of the avatar view: the tag extractor with an
 * alphanumeric token, the catalog lookup guarded against a missing catalog,
 * the checks made before a session starts, and the `properties` display
 * state as its event handlers update it.
 */
module InteractiveAvatar {
  import opened Wrappers
  import opened PropertyTypes
  import opened TagScan

  /** `extractPropertyId`: the token of the first `[ID:<letters and digits>]` tag. */
  function ExtractPropertyId(message: string): (r: Option<string>)
    ensures r.Some? ==> |r.value| > 0 && AllInClass(r.value, Alphanumeric)
    ensures r.Some? ==> Occurs(Opener + r.value + "]", message)
    ensures r.Some? ==> exists i :: TagAt(message, i, r.value, Alphanumeric) && NoTagIn(message, 0, i, Alphanumeric)
    ensures r.None? <==> NoTagIn(message, 0, |message|, Alphanumeric)
  {
    Extract(message, Alphanumeric)
  }

  /**
   * `findPropertyById`: undefined when the catalog document or one level of
   * its path is missing, otherwise the first listing with an equal identifier.
   */
  function FindPropertyById(data: Option<ImmobiliData>, id: string): (r: Option<Property>)
    ensures Listings(data).None? ==> r.None?
    ensures Listings(data).Some? ==> (r.Some? <==> HasId(Listings(data).value, id))
    ensures r.Some? ==> r.value.id == id && r.value in Listings(data).value
    ensures r.Some? ==> var ps := Listings(data).value;
      exists k :: 0 <= k < |ps| && ps[k] == r.value && forall j :: 0 <= j < k ==> ps[j].id != id
  {
    match Listings(data)
    case None => None
    case Some(ps) => Find(ps, id)
  }

  /** The two settings the view checks before it starts a session. */
  datatype StartConfig = StartConfig(knowledgeId: Option<string>, avatarName: Option<string>)

  /** JavaScript truthiness of an optional string: present and not empty. */
  predicate Truthy(o: Option<string>)
  {
    o.Some? && o.value != ""
  }

  const KnowledgeIdMissing: string :=
    "Knowledge ID non è impostato. Configuralo tramite il pannello prima di avviare la sessione."
  const AvatarNameMissing: string :=
    "Avatar Name (ID) non è impostato. Configuralo tramite il pannello prima di avviare la sessione."

  /**
   * The error a start attempt reports before any network call, or None when
   * the configuration passes both checks. The knowledge-base check comes
   * first, so its message wins when both settings are missing.
   */
  function StartRefusal(config: StartConfig): (r: Option<string>)
    ensures r == Some(KnowledgeIdMissing) <==> !Truthy(config.knowledgeId)
    ensures r == Some(AvatarNameMissing) <==> Truthy(config.knowledgeId) && !Truthy(config.avatarName)
    ensures r.None? <==> Truthy(config.knowledgeId) && Truthy(config.avatarName)
  {
    if !Truthy(config.knowledgeId) then Some(KnowledgeIdMissing)
    else if !Truthy(config.avatarName) then Some(AvatarNameMissing)
    else None
  }

  /** What the talking-message handler does with one fragment of speech. */
  datatype FragmentOutcome =
    | NoTag                    // no well-formed tag: nothing happens
    | Shown(property: Property) // the tag names a listing: it is displayed
    | NotFound(id: string)      // the tag names no listing: a warning is logged

  function ClassifyFragment(data: Option<ImmobiliData>, text: string): (o: FragmentOutcome)
    ensures o.NoTag? <==> NoTagIn(text, 0, |text|, Alphanumeric)
    ensures o.Shown? ==> ExtractPropertyId(text) == Some(o.property.id) && FindPropertyById(data, o.property.id) == Some(o.property)
    ensures o.NotFound? ==> ExtractPropertyId(text) == Some(o.id) && FindPropertyById(data, o.id).None?
  {
    match ExtractPropertyId(text)
    case None => NoTag
    case Some(id) =>
      match FindPropertyById(data, id)
      case Some(p) => Shown(p)
      case None => NotFound(id)
  }

  /** The events that write the `properties` state of the view. */
  datatype Event =
    | SessionStart(config: StartConfig)
    | TalkingMessage(text: string)
    | StreamDisconnected
    | Unmount

  /** The events that empty the display, whatever it held. */
  predicate IsReset(e: Event)
  {
    e.SessionStart? || e.StreamDisconnected? || e.Unmount?
  }

  /**
   * The displayed properties after one event, given those before it. Only
   * a fragment whose tag finds a listing writes a non-empty display.
   */
  function Step(data: Option<ImmobiliData>, properties: seq<Property>, e: Event): (r: seq<Property>)
    ensures IsReset(e) ==> r == []
    ensures e.TalkingMessage? && ExtractPropertyId(e.text).Some? && FindPropertyById(data, ExtractPropertyId(e.text).value).Some?
      ==> r == [FindPropertyById(data, ExtractPropertyId(e.text).value).value]
    ensures e.TalkingMessage? && (ExtractPropertyId(e.text).None? || FindPropertyById(data, ExtractPropertyId(e.text).value).None?)
      ==> r == properties
    ensures r == properties || |r| <= 1
  {
    match e
    case SessionStart(_) => []
    case TalkingMessage(text) =>
      (match ClassifyFragment(data, text)
       case Shown(p) => [p]
       case _ => properties)
    case StreamDisconnected => []
    case Unmount => []
  }

  /**
   * The displayed properties after a sequence of events, in arrival order:
   * either untouched or at most one listing, and empty after a final reset.
   */
  function Replay(data: Option<ImmobiliData>, properties: seq<Property>, events: seq<Event>): (r: seq<Property>)
    ensures r == properties || |r| <= 1
    ensures |events| > 0 && IsReset(events[|events| - 1]) ==> r == []
    decreases |events|
  {
    if events == [] then properties else Replay(data, Step(data, properties, events[0]), events[1..])
  }

  /**
   * What the view can display: nothing, or one listing of the loaded
   * catalog.
   */
  ghost predicate Displayable(data: Option<ImmobiliData>, properties: seq<Property>)
  {
    properties == [] || (|properties| == 1 && Listings(data).Some? && properties[0] in Listings(data).value)
  }

  /**
   * A fragment whose leftmost tag names a listing replaces the display with
   * exactly that listing; the previous display plays no part.
   */
  lemma FragmentReplacesDisplay(data: Option<ImmobiliData>, before: seq<Property>, text: string, p: Property)
    requires ExtractPropertyId(text) == Some(p.id) && FindPropertyById(data, p.id) == Some(p)
    ensures Step(data, before, TalkingMessage(text)) == [p]
  {
  }

  /** A fragment without a well-formed tag, or whose tag names no listing, changes nothing. */
  lemma FragmentWithoutMatchKeepsDisplay(data: Option<ImmobiliData>, before: seq<Property>, text: string)
    requires NoTagIn(text, 0, |text|, Alphanumeric)
      || (ExtractPropertyId(text).Some? && FindPropertyById(data, ExtractPropertyId(text).value).None?)
    ensures Step(data, before, TalkingMessage(text)) == before
  {
  }

  /** Handling the same fragment twice leaves the display as handling it once. */
  lemma FragmentIdempotent(data: Option<ImmobiliData>, before: seq<Property>, text: string)
    ensures var once := Step(data, before, TalkingMessage(text));
      Step(data, once, TalkingMessage(text)) == once
  {
  }

  /** Session start, disconnect and unmount empty the display, whatever it held. */
  lemma ResetEmptiesDisplay(data: Option<ImmobiliData>, before: seq<Property>, e: Event)
    requires e.StreamDisconnected? || e.Unmount? || e.SessionStart?
    ensures Step(data, before, e) == []
  {
  }

  /** Every event keeps the display to at most one listing of the catalog. */
  lemma StepKeepsDisplayable(data: Option<ImmobiliData>, before: seq<Property>, e: Event)
    requires Displayable(data, before)
    ensures Displayable(data, Step(data, before, e))
  {
  }

  /**
   * From any displayable state, a sequence of events leaves the display
   * empty or at one catalog listing.
   */
  lemma {:induction false} ReplayKeepsDisplayable(data: Option<ImmobiliData>, before: seq<Property>, events: seq<Event>)
    requires Displayable(data, before)
    ensures Displayable(data, Replay(data, before, events))
    decreases |events|
  {
    if events != [] {
      StepKeepsDisplayable(data, before, events[0]);
      ReplayKeepsDisplayable(data, Step(data, before, events[0]), events[1..]);
    }
  }

  /** Handling one more event after a sequence is one more step. */
  lemma {:induction false} ReplayAppend(data: Option<ImmobiliData>, before: seq<Property>, events: seq<Event>, e: Event)
    ensures Replay(data, before, events + [e]) == Step(data, Replay(data, before, events), e)
    decreases |events|
  {
    if events == [] {
      assert [e][1..] == [];
    } else {
      assert (events + [e])[1..] == events[1..] + [e];
      ReplayAppend(data, Step(data, before, events[0]), events[1..], e);
    }
  }

  /** The display after any history ending in a disconnect or unmount is empty. */
  lemma HistoryEndingInResetIsEmpty(data: Option<ImmobiliData>, before: seq<Property>, events: seq<Event>, e: Event)
    requires e.StreamDisconnected? || e.Unmount?
    ensures Replay(data, before, events + [e]) == []
  {
    ReplayAppend(data, before, events, e);
  }

  /** The first fragment of the conversation below names listing A1. */
  lemma FirstFragmentShowsA1()
    ensures ExtractPropertyId("Questa è la casa [ID:A1] in centro") == Some("A1")
  {
    assert "Questa è la casa [ID:A1] in centro" == "Questa è la casa " + Opener + "A1" + "]" + " in centro";
    ExtractAfterPlainPrefix("Questa è la casa ", "A1", " in centro", Alphanumeric);
  }

  /** The third fragment of the conversation below names listing B2. */
  lemma ThirdFragmentShowsB2()
    ensures ExtractPropertyId("guardi anche [ID:B2]") == Some("B2")
  {
    assert "guardi anche [ID:B2]" == "guardi anche " + Opener + "B2" + "]" + "";
    ExtractAfterPlainPrefix("guardi anche ", "B2", "", Alphanumeric);
  }

  /** An instance of `TagScan.SplitTagNeverMatched`: `[ID:A1]` cut after `A`, followed by ` bella casa`. */
  lemma SplitTagIsMissed()
    ensures ExtractPropertyId("[ID:A").None?
    ensures ExtractPropertyId("1] bella casa").None?
  {
    var split1, split2 := "[ID:A", "1] bella casa";
    NoTagHere(split1, 0, Alphanumeric);
    NoTagWithoutBracket(split1, 1, |split1|, Alphanumeric);
    NoTagWithoutBracket(split2, 0, |split2|, Alphanumeric);
  }

  /*
   * A conversation over a two-listing catalog, one lemma per fragment: a
   * tagged fragment shows its listing, an untagged one keeps it, a second tag
   * replaces it, and a tag split across two fragments is never seen.
   */

  lemma ScenarioFirstTagShows(data: Option<ImmobiliData>, a1: Property, b2: Property)
    requires a1.id == "A1" && b2.id == "B2"
    requires Listings(data) == Some([a1, b2])
    ensures Step(data, [], TalkingMessage("Questa è la casa [ID:A1] in centro")) == [a1]
  {
    TwoListingLookup(data, a1, b2);
    FirstFragmentShowsA1();
    FragmentReplacesDisplay(data, [], "Questa è la casa [ID:A1] in centro", a1);
  }

  lemma ScenarioUntaggedKeeps(data: Option<ImmobiliData>, a1: Property)
    ensures Step(data, [a1], TalkingMessage("bellissima no?")) == [a1]
  {
    NoTagWithoutBracket("bellissima no?", 0, |"bellissima no?"|, Alphanumeric);
    FragmentWithoutMatchKeepsDisplay(data, [a1], "bellissima no?");
  }

  lemma ScenarioSecondTagReplaces(data: Option<ImmobiliData>, a1: Property, b2: Property)
    requires a1.id == "A1" && b2.id == "B2"
    requires Listings(data) == Some([a1, b2])
    ensures Step(data, [a1], TalkingMessage("guardi anche [ID:B2]")) == [b2]
  {
    TwoListingLookup(data, a1, b2);
    ThirdFragmentShowsB2();
    FragmentReplacesDisplay(data, [a1], "guardi anche [ID:B2]", b2);
  }

  lemma ScenarioSplitTagKeeps(data: Option<ImmobiliData>, a1: Property)
    ensures Step(data, [a1], TalkingMessage("[ID:A")) == [a1]
    ensures Step(data, [a1], TalkingMessage("1] bella casa")) == [a1]
  {
    SplitTagIsMissed();
    FragmentWithoutMatchKeepsDisplay(data, [a1], "[ID:A");
    FragmentWithoutMatchKeepsDisplay(data, [a1], "1] bella casa");
  }

  /** Lookups in the two-listing catalog of the scenario. */
  lemma TwoListingLookup(data: Option<ImmobiliData>, a1: Property, b2: Property)
    requires a1.id == "A1" && b2.id == "B2"
    requires Listings(data) == Some([a1, b2])
    ensures FindPropertyById(data, "A1") == Some(a1)
    ensures FindPropertyById(data, "B2") == Some(b2)
  {
    assert FirstIndexWithId([a1, b2], "B2") == Some(1) by {
      assert [a1, b2][1..] == [b2];
    }
  }

  /**
   * The view's state: the displayed listings and the error banner. The
   * catalog is the imported document, fixed for the view's lifetime.
   */
  class AvatarView {
    const immobiliData: Option<ImmobiliData>
    var properties: seq<Property>
    var error: Option<string>

    ghost predicate Valid()
      reads this
    {
      Displayable(immobiliData, properties)
    }

    constructor (data: Option<ImmobiliData>)
      ensures Valid()
      ensures immobiliData == data && properties == [] && error == None
    {
      immobiliData := data;
      properties := [];
      error := None;
    }

    /**
     * `startSessionV2` up to its network calls: clears the error and the
     * display, then refuses a configuration without a knowledge base or
     * without an avatar. `proceeds` says whether the token fetch would follow.
     */
    method StartSession(config: StartConfig) returns (proceeds: bool)
      requires Valid()
      modifies this
      ensures Valid()
      ensures properties == Step(immobiliData, old(properties), Event.SessionStart(config)) == []
      ensures error == StartRefusal(config)
      ensures proceeds <==> error.None?
    {
      error := None;
      properties := [];
      if !Truthy(config.knowledgeId) {
        error := Some(KnowledgeIdMissing);
        return false;
      }
      if !Truthy(config.avatarName) {
        error := Some(AvatarNameMissing);
        return false;
      }
      return true;
    }

    /** The `AVATAR_TALKING_MESSAGE` handler for one fragment of speech. */
    method TalkingMessage(text: string) returns (outcome: FragmentOutcome)
      requires Valid()
      modifies this`properties
      ensures Valid()
      ensures properties == Step(immobiliData, old(properties), Event.TalkingMessage(text))
      ensures outcome == ClassifyFragment(immobiliData, text)
    {
      var propertyId := ExtractPropertyId(text);
      if propertyId.Some? {
        var property := FindPropertyById(immobiliData, propertyId.value);
        if property.Some? {
          properties := [property.value];
          outcome := Shown(property.value);
        } else {
          outcome := NotFound(propertyId.value);
        }
      } else {
        outcome := NoTag;
      }
    }

    /** The `STREAM_DISCONNECTED` handler. */
    method StreamDisconnected()
      requires Valid()
      modifies this`properties
      ensures Valid()
      ensures properties == Step(immobiliData, old(properties), Event.StreamDisconnected) == []
    {
      properties := [];
    }

    /** The unmount hook (after the SDK's stop call, which is not modelled). */
    method Unmount()
      requires Valid()
      modifies this`properties
      ensures Valid()
      ensures properties == Step(immobiliData, old(properties), Event.Unmount) == []
    {
      properties := [];
    }
  }
}
