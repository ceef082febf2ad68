/**
 * src/components/TokenModal.tsx: the full-screen token viewer. Its position in the list of
 * token ids and the prev/next targets are pure functions; navigation, the slideshow flag, the
 * loading state and the cancellation of superseded fetches form a small state machine.
 *
 * `onNavigate(id)` is the parent showing the token `id`, so it is modelled as the change of
 * the `tokenId` prop. Each run of the fetch effect is numbered; a run's `cancelled` flag is set
 * exactly when a later run has started, so a result is taken only if its run is the latest.
 */
module TokenModal {
  import opened Wrappers
  import opened Strings
  import opened ArtBlocks

  // ---------------------------------------------------------------- position and targets

  /** `tokenIds.indexOf(tokenId)`: the first index of the id, or -1 when it is absent */
  function IndexOf(ids: seq<string>, id: string): (k: int)
    ensures -1 <= k < |ids|
    ensures k == -1 <==> id !in ids
    ensures k >= 0 ==> ids[k] == id && forall j :: 0 <= j < k ==> ids[j] != id
  {
    if ids == [] then -1
    else if ids[0] == id then 0
    else
      var k := IndexOf(ids[1..], id);
      if k == -1 then -1 else k + 1
  }

  /** `currentIndex > 0` */
  predicate HasPrev(ids: seq<string>, id: string) {
    IndexOf(ids, id) > 0
  }

  /** `currentIndex < tokenIds.length - 1` */
  predicate HasNext(ids: seq<string>, id: string) {
    IndexOf(ids, id) < |ids| - 1
  }

  /** The id goNext hands to onNavigate, if any. */
  function NextTarget(ids: seq<string>, id: string): Option<string> {
    var k := IndexOf(ids, id);
    if k < |ids| - 1 then Some(ids[k + 1]) else None
  }

  /** The id goPrev hands to onNavigate, if any. */
  function PrevTarget(ids: seq<string>, id: string): Option<string> {
    var k := IndexOf(ids, id);
    if k > 0 then Some(ids[k - 1]) else None
  }

  /**
   * goNext navigates exactly when hasNext, to the id after the current one; goPrev exactly
   * when hasPrev, to the one before. An id missing from a non-empty list has no previous
   * token, and its next one is the first of the list.
   */
  lemma TargetsSpec(ids: seq<string>, id: string)
    ensures NextTarget(ids, id).Some? <==> HasNext(ids, id)
    ensures PrevTarget(ids, id).Some? <==> HasPrev(ids, id)
    ensures HasNext(ids, id) ==> NextTarget(ids, id) == Some(ids[IndexOf(ids, id) + 1])
    ensures HasPrev(ids, id) ==> PrevTarget(ids, id) == Some(ids[IndexOf(ids, id) - 1])
    ensures id !in ids && ids != [] ==> NextTarget(ids, id) == Some(ids[0]) && !HasPrev(ids, id)
    ensures ids == [] ==> !HasNext(ids, id) && !HasPrev(ids, id)
    ensures id in ids ==> (HasNext(ids, id) <==> IndexOf(ids, id) != |ids| - 1)
  {
  }

  /**
   * No id occurs twice. Stated on strings directly rather than through Sorting.DistinctBy,
   * whose key function would be the identity here.
   */
  predicate Distinct(ids: seq<string>) {
    forall i, j :: 0 <= i < j < |ids| ==> ids[i] != ids[j]
  }

  /** In a list without repeats every id sits at its own index. */
  lemma IndexOfDistinct(ids: seq<string>, k: nat)
    requires Distinct(ids) && k < |ids|
    ensures IndexOf(ids, ids[k]) == k
  {
    assert ids[k] in ids;
    forall j | 0 <= j < k
      ensures ids[j] != ids[k]
    {
    }
  }

  /** In a list without repeats, next and prev undo each other. */
  lemma NextPrevInverse(ids: seq<string>, k: nat)
    requires Distinct(ids) && k < |ids|
    ensures k + 1 < |ids| ==> NextTarget(ids, ids[k]) == Some(ids[k + 1])
    ensures k + 1 < |ids| ==> PrevTarget(ids, ids[k + 1]) == Some(ids[k])
    ensures k + 1 == |ids| ==> NextTarget(ids, ids[k]).None?
    ensures k == 0 ==> PrevTarget(ids, ids[k]).None?
  {
    IndexOfDistinct(ids, k);
    if k + 1 < |ids| {
      IndexOfDistinct(ids, k + 1);
    }
  }

  /** Where `n` presses of the right arrow lead; a press without a next token stays put. */
  function Advance(ids: seq<string>, id: string, n: nat): string
    decreases n
  {
    if n == 0 then id else Advance(ids, NextTarget(ids, id).GetOr(id), n - 1)
  }

  /**
   * In a list without repeats, n steps from the k-th token reach the (k+n)-th, and stop at
   * the last one: the slideshow walks the list in order and ends on its last token.
   */
  lemma {:induction false} AdvanceSpec(ids: seq<string>, k: nat, n: nat)
    requires Distinct(ids) && k < |ids|
    ensures Advance(ids, ids[k], n) == ids[if k + n < |ids| then k + n else |ids| - 1]
    decreases n
  {
    if n > 0 {
      if k + 1 < |ids| {
        AdvanceNext(ids, k, n);
        AdvanceSpec(ids, k + 1, n - 1);
      } else {
        AdvanceLast(ids, n);
        AdvanceSpec(ids, k, n - 1);
      }
    }
  }

  /** A step from a token with a successor moves to it. */
  lemma AdvanceNext(ids: seq<string>, k: nat, n: nat)
    requires Distinct(ids) && k + 1 < |ids| && n > 0
    ensures Advance(ids, ids[k], n) == Advance(ids, ids[k + 1], n - 1)
  {
    NextPrevInverse(ids, k);
  }

  /** A step from the last token stays there. */
  lemma AdvanceLast(ids: seq<string>, n: nat)
    requires Distinct(ids) && |ids| > 0 && n > 0
    ensures Advance(ids, ids[|ids| - 1], n) == Advance(ids, ids[|ids| - 1], n - 1)
  {
    NextPrevInverse(ids, |ids| - 1);
  }

  /**
   * `{token && (... {tokenIds.length > 1 && <span>{currentIndex + 1} / {tokenIds.length}</span>})}`:
   * the position sits in the info overlay, which is drawn only once a token is loaded.
   */
  function PositionLabel(ids: seq<string>, id: string, token: Option<TokenDetail>): Option<string> {
    if token.Some? && |ids| > 1 then Some(NatToString(IndexOf(ids, id) + 1) + " / " + NatToString(|ids|))
    else None
  }

  /**
   * The position is shown exactly when a token is loaded and the list has two ids or more. It
   * reads "i / n": i reads back as the one-based position of the first occurrence of the id (0
   * for an id not in the list), n as the length of the list.
   */
  lemma PositionLabelSpec(ids: seq<string>, id: string, token: Option<TokenDetail>)
    ensures PositionLabel(ids, id, token).Some? <==> token.Some? && |ids| > 1
    ensures token.Some? && |ids| > 1 ==>
      var i := NatToString(IndexOf(ids, id) + 1);
      var n := NatToString(|ids|);
      && PositionLabel(ids, id, token).value == i + " / " + n
      && DecimalValue(i) == IndexOf(ids, id) + 1
      && (id in ids ==> 1 <= DecimalValue(i) <= |ids|)
      && (id !in ids ==> DecimalValue(i) == 0)
      && DecimalValue(n) == |ids|
  {
    if token.Some? && |ids| > 1 {
      NatToStringValue(IndexOf(ids, id) + 1);
      NatToStringValue(|ids|);
    }
  }

  // ---------------------------------------------------------------- keys

  datatype KeyEffect = Close | GoNext | GoPrev | Ignored

  /** handleKeyDown: Escape closes, the right arrow goes next, the left arrow goes back. */
  function KeyAction(key: string): (e: KeyEffect)
    ensures e == Close <==> key == "Escape"
    ensures e == GoNext <==> key == "ArrowRight"
    ensures e == GoPrev <==> key == "ArrowLeft"
    ensures e == Ignored <==> key !in {"Escape", "ArrowRight", "ArrowLeft"}
  {
    if key == "Escape" then Close
    else if key == "ArrowRight" then GoNext
    else if key == "ArrowLeft" then GoPrev
    else Ignored
  }

  // ---------------------------------------------------------------- fetch results

  /** What a run of fetchTokenDetail settles with: a value (possibly null), or a thrown value. */
  datatype Settled =
    | Fulfilled(detail: Option<TokenDetail>)
    | Rejected(message: Option<string>) // the message of a thrown Error; None for any other value

  const NOT_FOUND := "Token not found"
  const SOMETHING_WRONG := "Something went wrong"

  /** The message of the Error fetchTokenDetail throws for a failure. */
  function ErrorMessage(e: FetchError): string {
    match e
    case ApiError(status) => "API error: " + IntToString(status)
    case GraphQLError(message) => message
    case NetworkError(message) => message
  }

  /** How the outcome of fetchTokenDetail reaches the modal: every failure is a thrown Error. */
  function SettledOf(r: Result<Option<TokenDetail>, FetchError>): (s: Settled)
    ensures r.Ok? <==> s.Fulfilled?
    ensures r.Ok? ==> s.detail == r.value
    ensures r.Err? ==> s.message == Some(ErrorMessage(r.error))
  {
    match r
    case Ok(d) => Fulfilled(d)
    case Err(e) => Rejected(Some(ErrorMessage(e)))
  }

  /** The value a settled fetch passes to setError; None when it does not call setError. */
  function ErrorText(s: Settled): Option<string> {
    match s
    case Fulfilled(d) => if d.None? then Some(NOT_FOUND) else None
    case Rejected(m) => Some(m.GetOr(SOMETHING_WRONG))
  }

  /**
   * `{error && ...}`: the error view is drawn only for a non-empty error string, so an Error
   * thrown with an empty message is stored but never shown.
   */
  function ErrorView(error: Option<string>): Option<string> {
    Truthy(error)
  }

  /**
   * The settled fetch itself sets no error text exactly when the token is found; a failure or
   * a success without rows sets one. A non-OK status sets "API error: " and the status, an
   * empty answer "Token not found". The text it sets is drawn unless the fetch threw with an
   * empty message. An error set by an earlier fetch is kept either way (see Modal.Settle).
   */
  lemma ErrorTextOfReply(reply: Reply<TokenDetail>)
    ensures var text := ErrorText(SettledOf(TokenDetailOutcome(reply)));
      && (text.None? <==> Succeeds(reply) && |reply.body.rows| > 0)
      && (ErrorView(text).None? <==> (Succeeds(reply) && |reply.body.rows| > 0) || reply == Thrown(""))
      && (reply.Response? && !IsOk(reply.status) ==>
            text == Some("API error: " + IntToString(reply.status)))
      && (Succeeds(reply) && reply.body.rows == [] ==> text == Some(NOT_FOUND))
  {
  }

  // ---------------------------------------------------------------- the state machine

  class Modal {
    var tokenIds: seq<string>
    var tokenId: string
    var token: Option<TokenDetail>
    var loading: bool
    var error: Option<string>
    var slideshow: bool
    /** the number of the latest run of the fetch effect; every earlier run is cancelled */
    var request: nat
    /** whether onClose was called */
    var closed: bool

    /** The effect at line 120 leaves the slideshow on only while there is a next token. */
    predicate Valid()
      reads this
    {
      slideshow ==> HasNext(tokenIds, tokenId)
    }

    /** Mounting: nothing loaded yet, the first fetch running, the slideshow off. */
    constructor(tokenIds: seq<string>, tokenId: string)
      ensures Valid()
      ensures this.tokenIds == tokenIds && this.tokenId == tokenId
      ensures token.None? && loading && error.None? && !slideshow && request == 0 && !closed
    {
      this.tokenIds := tokenIds;
      this.tokenId := tokenId;
      token := None;
      loading := true;
      error := None;
      slideshow := false;
      request := 0;
      closed := false;
    }

    /** The effect at line 120: a slideshow with no next token is switched off. */
    method StopAtEnd()
      modifies this
      ensures slideshow == (old(slideshow) && HasNext(tokenIds, tokenId))
      ensures Valid()
      ensures tokenIds == old(tokenIds) && tokenId == old(tokenId) && token == old(token)
      ensures loading == old(loading) && error == old(error) && request == old(request)
      ensures closed == old(closed)
    {
      if slideshow && !HasNext(tokenIds, tokenId) {
        slideshow := false;
      }
    }

    /**
     * onNavigate(id): the modal shows `id`. A different id re-runs the fetch effect, which
     * cancels the running fetch and sets loading; the shown token and error stay until the
     * new fetch settles. The same id re-runs nothing.
     */
    method Navigate(id: string)
      modifies this
      ensures Valid()
      ensures tokenId == id && tokenIds == old(tokenIds)
      ensures id != old(tokenId) ==> loading && request == old(request) + 1
      ensures id == old(tokenId) ==> loading == old(loading) && request == old(request)
      ensures token == old(token) && error == old(error) && closed == old(closed)
      ensures slideshow == (old(slideshow) && HasNext(tokenIds, id))
    {
      if id != tokenId {
        request := request + 1;
        loading := true;
      }
      tokenId := id;
      StopAtEnd();
    }

    /** goNext: a no-op without a next token. */
    method Next()
      modifies this
      requires Valid()
      ensures Valid()
      ensures NextTarget(old(tokenIds), old(tokenId)).None? ==> unchanged(this)
      ensures NextTarget(old(tokenIds), old(tokenId)).Some? ==>
        && tokenId == NextTarget(old(tokenIds), old(tokenId)).value
        && tokenIds == old(tokenIds) && token == old(token) && error == old(error)
        && closed == old(closed)
        && (tokenId != old(tokenId) ==> loading && request == old(request) + 1)
        && (tokenId == old(tokenId) ==> loading == old(loading) && request == old(request))
        && slideshow == (old(slideshow) && HasNext(tokenIds, tokenId))
    {
      var target := NextTarget(tokenIds, tokenId);
      if target.Some? {
        Navigate(target.value);
      }
    }

    /** goPrev: a no-op without a previous token. */
    method Prev()
      modifies this
      requires Valid()
      ensures Valid()
      ensures PrevTarget(old(tokenIds), old(tokenId)).None? ==> unchanged(this)
      ensures PrevTarget(old(tokenIds), old(tokenId)).Some? ==>
        && tokenId == PrevTarget(old(tokenIds), old(tokenId)).value
        && tokenIds == old(tokenIds) && token == old(token) && error == old(error)
        && closed == old(closed)
        && (tokenId != old(tokenId) ==> loading && request == old(request) + 1)
        && (tokenId == old(tokenId) ==> loading == old(loading) && request == old(request))
        && slideshow == (old(slideshow) && HasNext(tokenIds, tokenId))
    {
      var target := PrevTarget(tokenIds, tokenId);
      if target.Some? {
        Navigate(target.value);
      }
    }

    /** handleKeyDown; any key other than the three does nothing. */
    method KeyDown(key: string)
      modifies this
      requires Valid()
      ensures Valid()
      ensures KeyAction(key) == Ignored ==> unchanged(this)
      ensures KeyAction(key) == Close ==>
        && closed
        && tokenIds == old(tokenIds) && tokenId == old(tokenId) && token == old(token)
        && loading == old(loading) && error == old(error) && slideshow == old(slideshow)
        && request == old(request)
      ensures KeyAction(key) == GoNext && NextTarget(old(tokenIds), old(tokenId)).None? ==> unchanged(this)
      ensures KeyAction(key) == GoNext && NextTarget(old(tokenIds), old(tokenId)).Some? ==>
        && tokenId == NextTarget(old(tokenIds), old(tokenId)).value
        && tokenIds == old(tokenIds) && token == old(token) && error == old(error)
        && closed == old(closed)
        && (tokenId != old(tokenId) ==> loading && request == old(request) + 1)
        && (tokenId == old(tokenId) ==> loading == old(loading) && request == old(request))
        && slideshow == (old(slideshow) && HasNext(tokenIds, tokenId))
      ensures KeyAction(key) == GoPrev && PrevTarget(old(tokenIds), old(tokenId)).None? ==> unchanged(this)
      ensures KeyAction(key) == GoPrev && PrevTarget(old(tokenIds), old(tokenId)).Some? ==>
        && tokenId == PrevTarget(old(tokenIds), old(tokenId)).value
        && tokenIds == old(tokenIds) && token == old(token) && error == old(error)
        && closed == old(closed)
        && (tokenId != old(tokenId) ==> loading && request == old(request) + 1)
        && (tokenId == old(tokenId) ==> loading == old(loading) && request == old(request))
        && slideshow == (old(slideshow) && HasNext(tokenIds, tokenId))
    {
      match KeyAction(key)
      case Close => closed := true;
      case GoNext => Next();
      case GoPrev => Prev();
      case Ignored =>
    }

    /**
     * toggleSlideshow flips the flag; switching it on at the last token is undone at once by
     * the effect at line 120.
     */
    method ToggleSlideshow()
      modifies this
      requires Valid()
      ensures Valid()
      ensures slideshow == (!old(slideshow) && HasNext(tokenIds, tokenId))
      ensures old(slideshow) ==> !slideshow
      ensures tokenIds == old(tokenIds) && tokenId == old(tokenId) && token == old(token)
      ensures loading == old(loading) && error == old(error) && request == old(request)
      ensures closed == old(closed)
    {
      slideshow := !slideshow;
      StopAtEnd();
    }

    /**
     * One SLIDESHOW_INTERVAL elapses. The interval exists only while the slideshow is on and
     * there is a next token; then it calls goNext.
     */
    method Tick()
      modifies this
      requires Valid()
      ensures Valid()
      ensures !old(slideshow) ==> unchanged(this)
      ensures old(slideshow) ==>
        && old(HasNext(tokenIds, tokenId))
        && tokenId == NextTarget(old(tokenIds), old(tokenId)).value
        && tokenIds == old(tokenIds) && token == old(token) && error == old(error)
        && closed == old(closed)
        && (tokenId != old(tokenId) ==> loading && request == old(request) + 1)
        && (tokenId == old(tokenId) ==> loading == old(loading) && request == old(request))
        && slideshow == HasNext(tokenIds, tokenId)
    {
      if slideshow && HasNext(tokenIds, tokenId) {
        Next();
      }
    }

    /**
     * The fetch of run `run` settles. A cancelled run changes nothing. Otherwise a null
     * result sets "Token not found", a thrown Error its message and any other thrown value
     * "Something went wrong", a found token is shown, and loading ends. An earlier error is
     * never reset, so after a found token both the error view and the token are drawn; only a
     * later Error with an empty message replaces a drawn error with one that is not drawn.
     */
    method Settle(run: nat, result: Settled)
      modifies this
      requires Valid()
      ensures Valid()
      ensures run != old(request) ==> unchanged(this)
      ensures run == old(request) ==>
        && !loading
        && (result == Fulfilled(None) ==> error == Some(NOT_FOUND) && token == old(token))
        && (result.Fulfilled? && result.detail.Some? ==> token == result.detail && error == old(error))
        && (result.Rejected? ==> error == Some(result.message.GetOr(SOMETHING_WRONG)) && token == old(token))
        && tokenIds == old(tokenIds) && tokenId == old(tokenId) && slideshow == old(slideshow)
        && request == old(request) && closed == old(closed)
      ensures old(error).Some? ==> error.Some?
      ensures run == old(request) && ErrorView(old(error)).Some? && result != Rejected(Some("")) ==>
        ErrorView(error).Some?
      ensures run == old(request) && result == Rejected(Some("")) ==> ErrorView(error).None?
    {
      if run == request {
        match result {
          case Fulfilled(d) =>
            if d.None? {
              error := Some(NOT_FOUND);
            } else {
              token := d;
            }
          case Rejected(m) =>
            error := Some(m.GetOr(SOMETHING_WRONG));
        }
        loading := false;
      }
    }
  }
}
