/** The guided photo-capture session: a cursor over the product's ordered list of
    required photo slots, a map from slot id to captured image URI, camera or
    gallery acquisitions that store (or retake) one slot and auto-advance the
    cursor, removal of a slot's photo, and the "all photos taken" gate that
    unlocks submission to the analysis screen. */
module PhotoCapture {
  import opened Wrappers
  import opened ProductConfig

  /** What one camera or gallery attempt produced. The device pickers themselves
      are outside the model; each attempt is reduced to its outcome. */
  datatype Acquisition =
    | Captured(uri: string)   // not cancelled and an asset was returned
    | Cancelled               // picker dismissed, or no asset in the result
    | PermissionDenied        // the permission request was not granted
    | Failed                  // the picker threw

  datatype CaptureSource = Camera | Gallery

  /** The alert a capture attempt shows, if any. */
  datatype CaptureAlert = NoAlert | PermissionAlert(source: CaptureSource) | ErrorAlert(source: CaptureSource)

  /** What the back button does. */
  datatype LeaveDecision = LeaveNow | AskToDiscard

  /** The navigation parameters of "Start AI Analysis". */
  datatype Submission = Submission(photos: map<string, string>, itemName: string, serviceType: string)

  /** Route parameter defaults of the screen. */
  const DefaultServiceType := "basic"
  const DefaultProductId := "attica-bag"

  /** The cursor after "Next": one further unless already at the last slot. */
  function NextIndex(index: nat, count: nat): (r: nat)
    ensures index < count ==> r < count
    ensures r == index || r == index + 1
    ensures r == index + 1 <==> index + 1 < count
  {
    if index < count - 1 then index + 1 else index
  }

  /** The cursor after "Previous": one back unless already at the first slot. */
  function PreviousIndex(index: nat): (r: nat)
    ensures r <= index
    ensures r == index - 1 <==> index > 0
  {
    if index > 0 then index - 1 else index
  }

  /** Next then Previous returns to an interior cursor; Previous then Next returns
      to any cursor above the first slot. At the boundaries each is a no-op. */
  lemma NavigationRoundTrip(index: nat, count: nat)
    requires index < count
    ensures index + 1 < count ==> PreviousIndex(NextIndex(index, count)) == index
    ensures index > 0 ==> NextIndex(PreviousIndex(index), count) == index
    ensures index == count - 1 ==> NextIndex(index, count) == index
    ensures index == 0 ==> PreviousIndex(index) == index
  {
  }

  /** `allPhotosTaken`: as many stored photos as required slots. */
  predicate AllTaken(photos: map<string, string>, slots: seq<PhotoSlot>) {
    |photos.Keys| == |slots|
  }

  /** Because stored keys are always slot ids, counting stored photos is the same
      as checking that every slot id has a photo. */
  lemma {:induction false} AllTakenIffEverySlotFilled(photos: map<string, string>, slots: seq<PhotoSlot>)
    requires DistinctIds(slots)
    requires photos.Keys <= SlotIds(slots)
    ensures AllTaken(photos, slots) <==> SlotIds(slots) <= photos.Keys
    ensures |photos.Keys| <= |slots|
  {
    SlotIdsCount(slots);
    var ids := SlotIds(slots);
    assert |ids| == |photos.Keys| + |ids - photos.Keys| by {
      assert ids == photos.Keys + (ids - photos.Keys);
    }
    if AllTaken(photos, slots) {
      assert |ids - photos.Keys| == 0;
      assert ids - photos.Keys == {};
      forall x | x in ids ensures x in photos.Keys {
        assert x !in ids - photos.Keys;
      }
    }
  }

  /** The slot ids named by a run of captures. */
  function CapturedIds(captures: seq<(string, string)>): set<string> {
    set i | 0 <= i < |captures| :: captures[i].0
  }

  /** Applies a run of successful captures, in order, to the stored photos. */
  function StoreAll(photos: map<string, string>, captures: seq<(string, string)>): (r: map<string, string>)
    ensures r.Keys == photos.Keys + CapturedIds(captures)
    decreases |captures|
  {
    if captures == [] then photos
    else
      var r := StoreAll(photos[captures[0].0 := captures[0].1], captures[1..]);
      assert CapturedIds(captures) == {captures[0].0} + CapturedIds(captures[1..]) by {
        forall x | x in CapturedIds(captures) ensures x in {captures[0].0} + CapturedIds(captures[1..]) {
          var i :| 0 <= i < |captures| && captures[i].0 == x;
          if i > 0 { assert captures[1..][i - 1].0 == x; }
        }
      }
      r
  }

  /** Successful captures covering every slot id, in any order and with retakes,
      complete the set. */
  lemma CapturesCoveringAllSlotsComplete(photos: map<string, string>, slots: seq<PhotoSlot>, captures: seq<(string, string)>)
    requires DistinctIds(slots)
    requires photos.Keys <= SlotIds(slots)
    requires forall i :: 0 <= i < |captures| ==> captures[i].0 in SlotIds(slots)
    requires forall s :: s in SlotIds(slots) ==> exists i :: 0 <= i < |captures| && captures[i].0 == s
    ensures AllTaken(StoreAll(photos, captures), slots)
  {
    var r := StoreAll(photos, captures);
    assert r.Keys == SlotIds(slots);
    AllTakenIffEverySlotFilled(r, slots);
  }

  /** Removing one photo from a complete set breaks completion; capturing that
      slot again restores it. */
  lemma RemoveThenRetake(photos: map<string, string>, slots: seq<PhotoSlot>, id: string, uri: string)
    requires DistinctIds(slots)
    requires photos.Keys <= SlotIds(slots)
    requires AllTaken(photos, slots)
    requires id in SlotIds(slots)
    ensures !AllTaken(photos - {id}, slots)
    ensures AllTaken((photos - {id})[id := uri], slots)
  {
    AllTakenIffEverySlotFilled(photos, slots);
    AllTakenIffEverySlotFilled(photos - {id}, slots);
    AllTakenIffEverySlotFilled((photos - {id})[id := uri], slots);
  }

  /** The alert a finished acquisition shows. */
  function AlertFor(source: CaptureSource, outcome: Acquisition): CaptureAlert {
    match outcome
    case PermissionDenied => PermissionAlert(source)
    case Failed => ErrorAlert(source)
    case _ => NoAlert
  }

  class CaptureSession {
    const serviceType: string
    const itemName: string
    const requiredPhotos: seq<PhotoSlot>
    /** Slot id to image URI. */
    var photos: map<string, string>
    var currentPhotoIndex: nat
    /** An acquisition is in flight; the capture buttons are disabled meanwhile. */
    var loading: bool
    /** The slot and source of the acquisition in flight. */
    var pending: Option<(string, CaptureSource)>

    ghost predicate Valid()
      reads this
    {
      && WellFormedSlots(requiredPhotos)
      && currentPhotoIndex < |requiredPhotos|
      && photos.Keys <= SlotIds(requiredPhotos)
      && (loading <==> pending.Some?)
      && (pending.Some? ==> pending.value.0 in SlotIds(requiredPhotos))
    }

    /** Entering the screen for a product; absent route parameters take their defaults. */
    constructor (productIdParam: Option<string>, serviceTypeParam: Option<string>)
      requires IsKnownProduct(productIdParam.GetOr(DefaultProductId))
      ensures Valid()
      ensures var entry := GetProductConfig(productIdParam.GetOr(DefaultProductId)).value;
        requiredPhotos == entry.requiredPhotos && itemName == entry.name
      ensures serviceType == serviceTypeParam.GetOr(DefaultServiceType)
      ensures photos == map[] && currentPhotoIndex == 0 && !loading
    {
      var entry := GetProductConfig(productIdParam.GetOr(DefaultProductId)).value;
      KnownProductSlots(productIdParam.GetOr(DefaultProductId));
      serviceType := serviceTypeParam.GetOr(DefaultServiceType);
      itemName := entry.name;
      requiredPhotos := entry.requiredPhotos;
      photos := map[];
      currentPhotoIndex := 0;
      loading := false;
      pending := None;
    }

    /** `handleNext`. */
    method Next()
      requires Valid()
      modifies this`currentPhotoIndex
      ensures Valid()
      ensures currentPhotoIndex == NextIndex(old(currentPhotoIndex), |requiredPhotos|)
    {
      if currentPhotoIndex < |requiredPhotos| - 1 {
        currentPhotoIndex := currentPhotoIndex + 1;
      }
    }

    /** `handlePrevious`. */
    method Previous()
      requires Valid()
      modifies this`currentPhotoIndex
      ensures Valid()
      ensures currentPhotoIndex == PreviousIndex(old(currentPhotoIndex))
    {
      if currentPhotoIndex > 0 {
        currentPhotoIndex := currentPhotoIndex - 1;
      }
    }

    /** Pressing the indicator of slot `index`; indicators exist only for slots. */
    method Jump(index: nat)
      requires Valid() && index < |requiredPhotos|
      modifies this`currentPhotoIndex
      ensures Valid()
      ensures currentPhotoIndex == index
    {
      currentPhotoIndex := index;
    }

    /** The start of `handleTakePhoto` / `handlePickImage` for a slot's card:
        `loading` goes up and the acquisition is in flight. */
    method BeginCapture(photoId: string, source: CaptureSource)
      requires Valid() && !loading && photoId in SlotIds(requiredPhotos)
      modifies this`loading, this`pending
      ensures Valid()
      ensures loading && pending == Some((photoId, source))
    {
      loading := true;
      pending := Some((photoId, source));
    }

    /** The end of the acquisition. A captured image is stored under the slot id,
        replacing any earlier one, and the cursor advances unless it is on the last
        slot; any other outcome leaves photos and cursor as they were. */
    method FinishCapture(outcome: Acquisition) returns (alert: CaptureAlert)
      requires Valid() && loading
      modifies this`photos, this`currentPhotoIndex, this`loading, this`pending
      ensures Valid()
      ensures !loading && pending == None
      ensures alert == AlertFor(old(pending).value.1, outcome)
      ensures outcome.Captured? ==>
        && photos == old(photos)[old(pending).value.0 := outcome.uri]
        && currentPhotoIndex == NextIndex(old(currentPhotoIndex), |requiredPhotos|)
      ensures !outcome.Captured? ==>
        photos == old(photos) && currentPhotoIndex == old(currentPhotoIndex)
    {
      var (photoId, source) := pending.value;
      alert := AlertFor(source, outcome);
      if outcome.Captured? {
        photos := photos[photoId := outcome.uri];
        if currentPhotoIndex < |requiredPhotos| - 1 {
          Next();
        }
      }
      loading := false;
      pending := None;
    }

    /** `handleRemovePhoto`: once the user confirms, only that slot's photo goes. */
    method RemovePhoto(photoId: string, confirmed: bool)
      requires Valid()
      modifies this`photos
      ensures Valid()
      ensures photos == if confirmed then old(photos) - {photoId} else old(photos)
    {
      if confirmed {
        photos := photos - {photoId};
      }
    }

    /** `photoProgress`: the number of stored photos. */
    function PhotoProgress(): (n: nat)
      reads this
      requires Valid()
      ensures n <= |requiredPhotos|
      ensures n == |requiredPhotos| <==> SlotIds(requiredPhotos) <= photos.Keys
    {
      AllTakenIffEverySlotFilled(photos, requiredPhotos);
      |photos.Keys|
    }

    /** The "Upload N more photos" count. */
    function Remaining(): (n: nat)
      reads this
      requires Valid()
      ensures n == 0 <==> SlotIds(requiredPhotos) <= photos.Keys
      ensures n + |photos.Keys| == |requiredPhotos|
    {
      |requiredPhotos| - PhotoProgress()
    }

    /** `allPhotosTaken`: true exactly when every required slot has a photo. */
    function AllPhotosTaken(): (b: bool)
      reads this
      requires Valid()
      ensures b <==> forall i :: 0 <= i < |requiredPhotos| ==> requiredPhotos[i].id in photos
    {
      AllTakenIffEverySlotFilled(photos, requiredPhotos);
      AllTaken(photos, requiredPhotos)
    }

    /** "Start AI Analysis" exists only when every slot is filled, and it hands on
        the whole photo map. */
    function Submit(): (s: Option<Submission>)
      reads this
      requires Valid()
      ensures s.Some? <==> forall i :: 0 <= i < |requiredPhotos| ==> requiredPhotos[i].id in photos
      ensures s.Some? ==> s.value == Submission(photos, itemName, serviceType)
    {
      if AllPhotosTaken() then Some(Submission(photos, itemName, serviceType)) else None
    }

    /** `goBack`: asks before discarding when at least one photo is stored. */
    function GoBack(): (d: LeaveDecision)
      reads this
      ensures d == AskToDiscard <==> photos != map[]
    {
      if |photos.Keys| > 0 then AskToDiscard else LeaveNow
    }
  }
}
