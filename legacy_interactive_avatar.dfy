/**
 * The older revision of the avatar view: a digits-only tag extractor, a
 * catalog lookup that dereferences the catalog path without a guard, and a
 * session start that leaves the display alone. Its differences from the
 * current revision are stated as lemmas at the end.
 */
module LegacyInteractiveAvatar {
  import opened Wrappers
  import opened PropertyTypes
  import opened TagScan
  import Current = InteractiveAvatar

  /** `extractPropertyId` with `\d+`: the token of the first `[ID:<digits>]` tag. */
  function ExtractPropertyId(message: string): (r: Option<string>)
    ensures r.Some? ==> |r.value| > 0 && AllInClass(r.value, Digits)
    ensures r.Some? ==> Occurs(Opener + r.value + "]", message)
    ensures r.Some? ==> exists i :: TagAt(message, i, r.value, Digits) && NoTagIn(message, 0, i, Digits)
    ensures r.None? <==> NoTagIn(message, 0, |message|, Digits)
  {
    Extract(message, Digits)
  }

  /** The JavaScript error raised by reading a property of `undefined`. */
  datatype JsError = TypeError

  /**
   * `immobiliData.catalogo_immobili.immobili.find(...)` without a guard: a
   * missing level of the path throws, otherwise the first listing with an
   * equal identifier, if any.
   */
  function FindPropertyById(data: Option<ImmobiliData>, id: string): (r: Result<Option<Property>, JsError>)
    ensures r.Failure? <==> Listings(data).None?
    ensures r.Success? && r.value.Some? ==> r.value.value.id == id && r.value.value in Listings(data).value
    ensures r.Success? ==> (r.value.Some? <==> HasId(Listings(data).value, id))
    ensures r.Success? && r.value.Some? ==> var ps := Listings(data).value;
      exists k :: 0 <= k < |ps| && ps[k] == r.value.value && forall j :: 0 <= j < k ==> ps[j].id != id
  {
    match data
    case None => Failure(TypeError)
    case Some(d) =>
      match d.catalogo_immobili
      case None => Failure(TypeError)
      case Some(c) =>
        match c.immobili
        case None => Failure(TypeError)
        case Some(ps) => Success(Find(ps, id))
  }

  /** What the older talking-message handler does with one fragment. */
  datatype FragmentOutcome =
    | NoTag                     // no all-digit tag: nothing happens
    | Shown(property: Property) // the tag names a listing: it is displayed
    | NotFound(id: string)      // the tag names no listing: nothing happens, silently
    | Threw(error: JsError)     // the lookup threw out of the handler

  function ClassifyFragment(data: Option<ImmobiliData>, text: string): (o: FragmentOutcome)
    ensures o.NoTag? <==> NoTagIn(text, 0, |text|, Digits)
    ensures o.Threw? <==> ExtractPropertyId(text).Some? && Listings(data).None?
    ensures o.Shown? ==> ExtractPropertyId(text) == Some(o.property.id) && FindPropertyById(data, o.property.id) == Success(Some(o.property))
    ensures o.NotFound? ==> ExtractPropertyId(text) == Some(o.id) && FindPropertyById(data, o.id) == Success(None)
  {
    match ExtractPropertyId(text)
    case None => NoTag
    case Some(id) =>
      match FindPropertyById(data, id)
      case Failure(e) => Threw(e)
      case Success(Some(p)) => Shown(p)
      case Success(None) => NotFound(id)
  }

  /** The events that write the `properties` state of the older view. */
  datatype Event =
    | SessionStart
    | TalkingMessage(text: string)
    | StreamDisconnected
    | Unmount

  /** The displayed properties after one event; a start leaves them as they were. */
  function Step(data: Option<ImmobiliData>, properties: seq<Property>, e: Event): (r: seq<Property>)
    ensures e.SessionStart? ==> r == properties
    ensures e.StreamDisconnected? || e.Unmount? ==> r == []
    ensures e.TalkingMessage? && ExtractPropertyId(e.text).Some?
      && FindPropertyById(data, ExtractPropertyId(e.text).value).Success?
      && FindPropertyById(data, ExtractPropertyId(e.text).value).value.Some?
      ==> r == [FindPropertyById(data, ExtractPropertyId(e.text).value).value.value]
    ensures e.TalkingMessage? && (ExtractPropertyId(e.text).None?
      || FindPropertyById(data, ExtractPropertyId(e.text).value).Failure?
      || FindPropertyById(data, ExtractPropertyId(e.text).value).value.None?)
      ==> r == properties
  {
    match e
    case SessionStart => properties
    case TalkingMessage(text) =>
      (match ClassifyFragment(data, text)
       case Shown(p) => [p]
       case _ => properties)
    case StreamDisconnected => []
    case Unmount => []
  }

  /** A starting session keeps whatever was displayed before it. */
  lemma StartKeepsDisplay(data: Option<ImmobiliData>, before: seq<Property>)
    ensures Step(data, before, SessionStart) == before
  {
  }

  /** A fragment whose all-digit tag names a listing replaces the display with it. */
  lemma FragmentReplacesDisplay(data: Option<ImmobiliData>, before: seq<Property>, text: string, p: Property)
    requires ExtractPropertyId(text) == Some(p.id) && FindPropertyById(data, p.id) == Success(Some(p))
    ensures Step(data, before, TalkingMessage(text)) == [p]
  {
  }

  /**
   * Without a found listing the display is unchanged: there is no else
   * branch, and a thrown lookup leaves the handler before any update.
   */
  lemma FragmentWithoutMatchKeepsDisplay(data: Option<ImmobiliData>, before: seq<Property>, text: string)
    requires !ClassifyFragment(data, text).Shown?
    ensures Step(data, before, TalkingMessage(text)) == before
  {
  }

  /** Handling the same fragment twice leaves the display as handling it once. */
  lemma FragmentIdempotent(data: Option<ImmobiliData>, before: seq<Property>, text: string)
    ensures var once := Step(data, before, TalkingMessage(text));
      Step(data, once, TalkingMessage(text)) == once
  {
  }

  /** Every event keeps the display to at most one listing of the catalog. */
  lemma StepKeepsDisplayable(data: Option<ImmobiliData>, before: seq<Property>, e: Event)
    requires Current.Displayable(data, before)
    ensures Current.Displayable(data, Step(data, before, e))
  {
  }

  /** `[ID:A1]` alone: the older revision sees no tag, the current one sees A1. */
  lemma MixedTagOnlyCurrentSees()
    ensures ExtractPropertyId("[ID:A1]").None?
    ensures Current.ExtractPropertyId("[ID:A1]") == Some("A1")
  {
    var s := "[ID:A1]";
    assert RunLength(s, 4, Digits) == 0;
    NoTagHere(s, 0, Digits);
    NoTagWithoutBracket(s, 1, |s|, Digits);
    assert s == "" + Opener + "A1" + "]" + "";
    ExtractAfterPlainPrefix("", "A1", "", Alphanumeric);
  }

  /** Where the older revision finds a tag, the current one finds one no later. */
  lemma DigitTagFoundImpliesAlphanumericFound(message: string)
    requires ExtractPropertyId(message).Some?
    ensures Current.ExtractPropertyId(message).Some?
    ensures LeftmostTag(message, Alphanumeric).value <= LeftmostTag(message, Digits).value
  {
    var i := LeftmostTag(message, Digits).value;
    DigitTagIsAlphanumericTag(message, i, TokenAt(message, i, Digits));
  }

  /**
   * When the current revision's token is all digits, the older revision
   * extracts the same token: an earlier digit tag would be an earlier
   * alphanumeric tag.
   */
  lemma AgreeOnDigitTokens(message: string)
    requires Current.ExtractPropertyId(message).Some?
    requires AllInClass(Current.ExtractPropertyId(message).value, Digits)
    ensures ExtractPropertyId(message) == Current.ExtractPropertyId(message)
  {
    var tok := Current.ExtractPropertyId(message).value;
    var i: nat :| TagAt(message, i, tok, Alphanumeric) && NoTagIn(message, 0, i, Alphanumeric);
    assert TagAt(message, i, tok, Digits);
    forall j, t | 0 <= j < i ensures !TagAt(message, j, t, Digits) {
      if TagAt(message, j, t, Digits) {
        DigitTagIsAlphanumericTag(message, j, t);
      }
    }
    var r := ExtractPropertyId(message).value;
    var k: nat :| TagAt(message, k, r, Digits) && NoTagIn(message, 0, k, Digits);
    TagUnique(message, i, tok, r, Digits);
  }

  /**
   * The older lookup throws exactly where the current one's guard fires, and
   * otherwise returns what the current one returns.
   */
  lemma LookupsAgree(data: Option<ImmobiliData>, id: string)
    ensures FindPropertyById(data, id).Failure? <==> Current.FindPropertyById(data, id).None? && Listings(data).None?
    ensures FindPropertyById(data, id).Success? ==> FindPropertyById(data, id).value == Current.FindPropertyById(data, id)
  {
  }

  /**
   * On a fragment whose leftmost tag has an all-digit token, or that has no
   * tag at all, both revisions leave the same display.
   */
  lemma FragmentAgreesOnDigitTags(data: Option<ImmobiliData>, before: seq<Property>, text: string)
    requires Current.ExtractPropertyId(text).None? || AllInClass(Current.ExtractPropertyId(text).value, Digits)
    ensures Step(data, before, TalkingMessage(text)) == Current.Step(data, before, Current.TalkingMessage(text))
  {
    if Current.ExtractPropertyId(text).None? {
      if ExtractPropertyId(text).Some? {
        DigitTagFoundImpliesAlphanumericFound(text);
      }
    } else {
      AgreeOnDigitTokens(text);
      LookupsAgree(data, Current.ExtractPropertyId(text).value);
    }
  }

  /** The older view's state: only the displayed listings. */
  class LegacyAvatarView {
    const immobiliData: Option<ImmobiliData>
    var properties: seq<Property>

    ghost predicate Valid()
      reads this
    {
      Current.Displayable(immobiliData, properties)
    }

    constructor (data: Option<ImmobiliData>)
      ensures Valid()
      ensures immobiliData == data && properties == []
    {
      immobiliData := data;
      properties := [];
    }

    /**
     * `startSessionV2` before its network calls: it writes no state of the
     * view, so the display survives a restart.
     */
    method StartSession()
      requires Valid()
      ensures Valid()
      ensures properties == Step(immobiliData, old(properties), Event.SessionStart)
    {
    }

    /**
     * The `AVATAR_TALKING_MESSAGE` handler. The outcome `Threw` reports the TypeError
     * that escapes it when the catalog path is missing.
     */
    method TalkingMessage(text: string) returns (outcome: FragmentOutcome)
      requires Valid()
      modifies this`properties
      ensures Valid()
      ensures properties == Step(immobiliData, old(properties), Event.TalkingMessage(text))
      ensures outcome == ClassifyFragment(immobiliData, text)
    {
      var propertyId := ExtractPropertyId(text);
      if propertyId.Some? {
        var found := FindPropertyById(immobiliData, propertyId.value);
        if found.Failure? {
          return Threw(found.error);
        }
        var property := found.value;
        if property.Some? {
          properties := [property.value];
          outcome := Shown(property.value);
        } else {
          outcome := NotFound(propertyId.value);
        }
      } else {
        outcome := NoTag;
      }
    }

    /** The `STREAM_DISCONNECTED` handler. */
    method StreamDisconnected()
      requires Valid()
      modifies this`properties
      ensures Valid()
      ensures properties == Step(immobiliData, old(properties), Event.StreamDisconnected) == []
    {
      properties := [];
    }

    /** The unmount hook (after the SDK's stop call, which is not modelled). */
    method Unmount()
      requires Valid()
      modifies this`properties
      ensures Valid()
      ensures properties == Step(immobiliData, old(properties), Event.Unmount) == []
    {
      properties := [];
    }
  }
}
