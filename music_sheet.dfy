/** The control handlers of the music-sheet page (src/pages/MusicSheet.tsx):
    the tempo box, the key selector, the score check and its modal. A MusicXML
    document is modelled as the sequence of its elements in document order,
    which is the order `getElementsByTagName` returns them in; each element
    carries its tag name and its text. Parsing and serialising the XML
    (DOMParser, XMLSerializer) is taken to give back the same elements. */
module MusicSheet {
  import opened Wrappers
  import opened JsRuntime

  datatype Element = Element(tag: string, text: string)

  type Document = seq<Element>

  const FifthsTag := "fifths"
  const DefaultKey := "0"
  const DefaultBpm := 100

  /** The key selector's options (lines 177-183). */
  const KeyOptions: seq<string> := ["-3", "-2", "-1", "0", "1", "2", "3"]

  datatype ScoreData = ScoreData(score: int, incorrectParts: seq<string>)

  const InitialScoreData := ScoreData(0, [])
  const ExampleScoreData := ScoreData(85, ["Measure 2, Beat 3", "Measure 5, Beat 1"])

  /** The outcome of `GET /api/getScore`: the request threw, or it answered
      with `response.data`, None standing for a falsy value. */
  datatype ScoreResponse = RequestFailed | Responded(data: Option<ScoreData>)

  // ---------------------------------------------------------------------------
  // Documents

  /** `getElementsByTagName(tag)[0]`: the position of the first element with
      that tag, or None (undefined). */
  function FirstIndex(doc: Document, tag: string): (r: Option<nat>)
    ensures r.None? ==> forall j :: 0 <= j < |doc| ==> doc[j].tag != tag
    ensures r.Some? ==> r.value < |doc| && doc[r.value].tag == tag &&
                        forall j :: 0 <= j < r.value ==> doc[j].tag != tag
  {
    if doc == [] then None
    else if doc[0].tag == tag then Some(0)
    else
      match FirstIndex(doc[1..], tag)
      case None => None
      case Some(i) => Some(i + 1)
  }

  /** The first element with the tag is determined by the document. */
  lemma FirstIndexIsFirst(doc: Document, tag: string, i: nat)
    requires i < |doc| && doc[i].tag == tag
    requires forall j :: 0 <= j < i ==> doc[j].tag != tag
    ensures FirstIndex(doc, tag) == Some(i)
  {
  }

  /** The key read in `initSheet` (line 58): the text of the first `fifths`
      element, or "0" when there is none or its text is empty. */
  function KeyFifths(doc: Document): (k: string)
    ensures k != ""
    ensures (forall j :: 0 <= j < |doc| ==> doc[j].tag != FifthsTag) ==> k == DefaultKey
    ensures forall i :: 0 <= i < |doc| && doc[i].tag == FifthsTag &&
                        (forall j :: 0 <= j < i ==> doc[j].tag != FifthsTag) ==>
                        k == (if doc[i].text == "" then DefaultKey else doc[i].text)
  {
    match FirstIndex(doc, FifthsTag)
    case None => DefaultKey
    case Some(i) => if doc[i].text == "" then DefaultKey else doc[i].text
  }

  /** Line 124 on the parsed document: the first `fifths` element's text becomes
      `newKey`; None when there is no `fifths` element (a TypeError). */
  function RewriteFirstFifths(doc: Document, newKey: string): (r: Option<Document>)
    ensures r.None? <==> forall j :: 0 <= j < |doc| ==> doc[j].tag != FifthsTag
    ensures r.Some? ==> |r.value| == |doc|
    ensures forall i :: 0 <= i < |doc| && doc[i].tag == FifthsTag &&
                        (forall j :: 0 <= j < i ==> doc[j].tag != FifthsTag) ==>
                        r.Some? && r.value[i] == Element(FifthsTag, newKey) &&
                        forall j :: 0 <= j < |doc| && j != i ==> r.value[j] == doc[j]
  {
    match FirstIndex(doc, FifthsTag)
    case None => None
    case Some(i) => Some(doc[i := Element(FifthsTag, newKey)])
  }

  /** Re-reading the key from a rewritten document gives the new key back (as
      long as it is not empty, which no option of the selector is). */
  lemma KeyOfRewrittenDocument(doc: Document, newKey: string)
    requires RewriteFirstFifths(doc, newKey).Some?
    requires newKey != ""
    ensures KeyFifths(RewriteFirstFifths(doc, newKey).value) == newKey
  {
  }

  /** Picking any option of the key selector in a document with a `fifths`
      element shows that option as the key. */
  lemma KeyOptionReadBack(doc: Document, i: nat, newKey: string)
    requires i < |doc| && doc[i].tag == FifthsTag
    requires newKey in KeyOptions
    ensures KeyFifths(RewriteFirstFifths(doc, newKey).value) == newKey
  {
    KeyOfRewrittenDocument(doc, newKey);
  }

  /** A second rewrite overwrites the first: only the last key chosen stays. */
  lemma RewriteTwice(doc: Document, k1: string, k2: string)
    requires RewriteFirstFifths(doc, k1).Some?
    ensures RewriteFirstFifths(RewriteFirstFifths(doc, k1).value, k2) == RewriteFirstFifths(doc, k2)
  {
    var i := FirstIndex(doc, FifthsTag).value;
    var d := RewriteFirstFifths(doc, k1).value;
    FirstIndexIsFirst(d, FifthsTag, i);
    assert RewriteFirstFifths(d, k2).value == RewriteFirstFifths(doc, k2).value;
  }

  /** `getElementsByTagName(tag)[0]` over the parsed document's nodes: a search
      for the first element with the tag. */
  method FindFirstTag(dom: array<Element>, tag: string) returns (found: bool, i: nat)
    ensures found <==> FirstIndex(dom[..], tag).Some?
    ensures found ==> FirstIndex(dom[..], tag) == Some(i)
  {
    i := 0;
    while i < dom.Length
      invariant i <= dom.Length
      invariant forall j :: 0 <= j < i ==> dom[j].tag != tag
    {
      if dom[i].tag == tag {
        FirstIndexIsFirst(dom[..], tag, i);
        return true, i;
      }
      i := i + 1;
    }
    found := false;
  }

  // ---------------------------------------------------------------------------
  // Tempo and score

  /** `parseInt(value, 10) || 100` (line 112): the parsed number when it is a
      non-zero number, and 100 when it is NaN or zero. */
  function NewBpm(value: string): (bpm: int)
    ensures bpm != 0
    ensures Truthy(ParseInt(value)) ==> bpm == ParseInt(value).v
    ensures !Truthy(ParseInt(value)) ==> bpm == DefaultBpm
  {
    var parsed := ParseInt(value);
    if Truthy(parsed) then parsed.v else DefaultBpm
  }

  /** Typing a non-zero integer sets exactly that tempo; typing zero falls
      back to 100. */
  lemma NewBpmOfTypedNumber(n: int)
    ensures n != 0 ==> NewBpm(IntToDecimal(n)) == n
    ensures n == 0 ==> NewBpm(IntToDecimal(n)) == DefaultBpm
  {
    ParseIntOfDecimal(n);
  }

  /** A box with no digit after the white space and the sign (empty, "-",
      "abc", " +x") falls back to 100. */
  lemma NewBpmWithoutDigits(value: string)
    requires var unsigned := StripSign(TrimStart(value));
      unsigned == [] || !IsDecimalDigit(unsigned[0])
    ensures NewBpm(value) == DefaultBpm
  {
    ParseIntNaN(value);
  }

  /** `response.data || exampleScoreData` on success (line 137), and the example
      data when the request fails (line 142). */
  function ChosenScore(response: ScoreResponse): (s: ScoreData)
    ensures response.Responded? && response.data.Some? ==> s == response.data.value
    ensures response.RequestFailed? || response.data.None? ==> s == ExampleScoreData
  {
    match response
    case RequestFailed => ExampleScoreData
    case Responded(data) => data.GetOr(ExampleScoreData)
  }

  // ---------------------------------------------------------------------------
  // The page's state and handlers

  class SheetPage {
    var xmlData: Document
    var bpm: int
    var key: string
    var open: bool
    var scoreData: ScoreData
    /** `audioPlayer.current` has been created (by the mount effect). */
    var hasAudioPlayer: bool
    /** The tempi handed to `audioPlayer.current.setBpm`, oldest first. */
    var playerTempi: seq<int>
    /** `location.state?.initialXmlData` (line 13): the document the route
        handed over, None when it is missing or empty. */
    const routeXml: Option<Document>

    /** The tempo is never zero, in the page's state and in what the player
        was told. */
    ghost predicate TempoNonZero()
      reads this
    {
      bpm != 0 && forall j :: 0 <= j < |playerTempi| ==> playerTempi[j] != 0
    }

    /** The initial state (lines 13-19): the route's document is kept, and the
        XML starts as that document or as the empty one when there is none. */
    constructor (route: Option<Document>)
      ensures TempoNonZero()
      ensures routeXml == route
      ensures xmlData == route.GetOr([]) && bpm == DefaultBpm && key == DefaultKey
      ensures !open && scoreData == InitialScoreData
      ensures !hasAudioPlayer && playerTempi == []
    {
      routeXml := route;
      xmlData, bpm, key := route.GetOr([]), DefaultBpm, DefaultKey;
      open, scoreData := false, InitialScoreData;
      hasAudioPlayer, playerTempi := false, [];
    }

    /** The synchronous part of `initSheet` (lines 56-60): the key is read from
        the document, and the document becomes the page's XML. */
    method InitSheet(doc: Document)
      modifies this`key, this`xmlData
      ensures key == KeyFifths(doc) && xmlData == doc
    {
      key := KeyFifths(doc);
      xmlData := doc;
    }

    /** The mount effect (lines 28-52): the audio player is created, then the
        route's document is shown, or else the one fetched from the server
        (`fetched` is None when that request failed). */
    method Mount(fetched: Option<Document>)
      modifies this`hasAudioPlayer, this`key, this`xmlData
      ensures hasAudioPlayer
      ensures routeXml.Some? ==> xmlData == routeXml.value && key == KeyFifths(routeXml.value)
      ensures routeXml.None? && fetched.Some? ==>
                xmlData == fetched.value && key == KeyFifths(fetched.value)
      ensures routeXml.None? && fetched.None? ==> xmlData == old(xmlData) && key == old(key)
    {
      hasAudioPlayer := true;
      if routeXml.Some? {
        InitSheet(routeXml.value);
      } else if fetched.Some? {
        InitSheet(fetched.value);
      }
    }

    /** `handleChangeBpm` (lines 111-118): the chosen tempo is stored and the
        same value is forwarded to the audio player, if there is one. */
    method HandleChangeBpm(value: string)
      requires TempoNonZero()
      modifies this`bpm, this`playerTempi
      ensures TempoNonZero()
      ensures bpm == NewBpm(value)
      ensures playerTempi == if hasAudioPlayer then old(playerTempi) + [bpm] else old(playerTempi)
    {
      bpm := NewBpm(value);
      if hasAudioPlayer {
        playerTempi := playerTempi + [bpm];
      }
    }

    /** `handleChangeKey` (lines 120-128): the document is parsed into nodes,
        the first `fifths` node's text is overwritten in place, and the result
        is shown; the key then ends up as the new key. Without a `fifths`
        element line 124 throws and nothing changes. */
    method HandleChangeKey(newKey: string) returns (threw: bool)
      modifies this`key, this`xmlData
      ensures threw <==> RewriteFirstFifths(old(xmlData), newKey).None?
      ensures threw ==> xmlData == old(xmlData) && key == old(key)
      ensures !threw ==> xmlData == RewriteFirstFifths(old(xmlData), newKey).value
      ensures !threw ==> key == newKey
    {
      var source := xmlData;
      var dom := new Element[|source|](j requires 0 <= j < |source| => source[j]);
      assert dom[..] == source;
      var found, i := FindFirstTag(dom, FifthsTag);
      if !found {
        return true;
      }
      dom[i] := Element(FifthsTag, newKey);
      assert dom[..] == source[i := Element(FifthsTag, newKey)];
      InitSheet(dom[..]);
      key := newKey;
      threw := false;
    }

    /** `handleCheckScore` (lines 130-145): the score shown is the server's, or
        the example data, and the modal opens in every case. */
    method HandleCheckScore(response: ScoreResponse)
      modifies this`scoreData, this`open
      ensures scoreData == ChosenScore(response) && open
    {
      scoreData := ChosenScore(response);
      open := true;
    }

    /** The modal's `onClose` (line 191): it closes and the score stays. */
    method CloseModal()
      modifies this`open
      ensures !open
    {
      open := false;
    }
  }

  /** A page over a one-staff document: picking key 2 rewrites the first
      `fifths` element only and shows 2. */
  method KeyScenario()
  {
    var doc := [Element("divisions", "1"), Element(FifthsTag, "0"), Element(FifthsTag, "-1")];
    FirstIndexIsFirst(doc, FifthsTag, 1);
    var page := new SheetPage(Some(doc));
    page.Mount(None);
    assert page.key == "0";
    var rewritten := doc[1 := Element(FifthsTag, "2")];
    assert RewriteFirstFifths(doc, "2") == Some(rewritten);
    var threw := page.HandleChangeKey("2");
    assert !threw && page.key == "2" && page.xmlData == rewritten;
    assert page.xmlData[2] == Element(FifthsTag, "-1");
  }

  /** A tempo box with no digit in it (cleared, "-", "abc") falls back to 100,
      and the player is told 100. */
  method TempoScenario(box: string)
    requires var unsigned := StripSign(TrimStart(box));
      unsigned == [] || !IsDecimalDigit(unsigned[0])
  {
    var page := new SheetPage(None);
    page.Mount(None);
    NewBpmWithoutDigits(box);
    page.HandleChangeBpm(box);
    assert page.bpm == DefaultBpm;
    assert page.playerTempi == [] + [DefaultBpm];
  }

  /** A failed score request still opens the modal, on the example data, and
      closing it keeps the score. */
  method ScoreScenario() {
    var page := new SheetPage(None);
    page.HandleCheckScore(RequestFailed);
    page.CloseModal();
    assert !page.open && page.scoreData == ExampleScoreData;
  }
}
