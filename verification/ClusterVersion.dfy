/** The ClusterVersion resource and the operator's commitment to an upgrade. */
module ClusterVersion {
  import opened Kube
  import opened Json

  datatype Release = Release(version: string, image: string)

  /** `spec.desired` of an UpgradeConfig. */
  datatype Desired = Desired(version: string, channel: string, image: string)

  /** The part of the ClusterVersion status the cluster-version operator publishes. */
  datatype Updates = Updates(available: seq<Release>, conditional: seq<Release>)

  datatype Source = WithImage | WithChannelVersion

  function DesiredUpdate(doc: Json): Option<Release> {
    var d := Field(Field(doc, "spec"), "desiredUpdate");
    if d.Obj? then Some(Release(Text(Field(d, "version")), Text(Field(d, "image")))) else None
  }

  function Channel(doc: Json): string {
    Text(Field(Field(doc, "spec"), "channel"))
  }

  function UpgradeSource(d: Desired): Option<Source> {
    if d.image != "" then Some(WithImage)
    else if d.channel != "" && d.version != "" then Some(WithChannelVersion)
    else None
  }

  /** The verdict of HasUpgradeCommenced on a document it managed to read. */
  predicate Commenced(doc: Json, d: Desired) {
    var u := DesiredUpdate(doc);
    match UpgradeSource(d)
    case None => false
    case Some(WithImage) => u.Some? && u.value.image == d.image
    case Some(WithChannelVersion) => u.Some? && u.value.version == d.version
  }

  function SpecPatch(k: string, v: Json): Json {
    Obj(map["spec" := Obj(map[k := v])])
  }

  function ImagePatch(image: string): Json {
    SpecPatch("desiredUpdate", Obj(map["image" := Str(image), "version" := Null]))
  }

  function ChannelPatch(channel: string): Json {
    SpecPatch("channel", Str(channel))
  }

  function VersionPatch(version: string, image: string): Json {
    SpecPatch("desiredUpdate",
              Obj(map["version" := Str(version), "image" := if image == "" then Null else Str(image)]))
  }

  /** A patch under `spec.k` is a merge of that one member and touches no other part of the document. */
  lemma SpecPatchIsLocal(doc: Json, k: string, v: Json)
    requires !v.Null?
    ensures var doc' := MergePatch(doc, SpecPatch(k, v));
            && Field(Field(doc', "spec"), k) == MergePatch(Field(Field(doc, "spec"), k), v)
            && (forall j :: j != k ==> Field(Field(doc', "spec"), j) == Field(Field(doc, "spec"), j))
            && (forall j :: j != "spec" ==> Field(doc', j) == Field(doc, j))
  {
  }

  /** The image patch commits exactly the image: any earlier version is dropped, the channel stays. */
  lemma ImagePatchEffect(doc: Json, image: string)
    ensures var doc' := MergePatch(doc, ImagePatch(image));
            DesiredUpdate(doc') == Some(Release("", image)) && Channel(doc') == Channel(doc)
  {
    var v := Obj(map["image" := Str(image), "version" := Null]);
    SpecPatchIsLocal(doc, "desiredUpdate", v);
    MergedField(Field(Field(doc, "spec"), "desiredUpdate"), v, "image");
    MergedField(Field(Field(doc, "spec"), "desiredUpdate"), v, "version");
  }

  /** The version patch commits the version, and an image only for a conditional update. */
  lemma VersionPatchEffect(doc: Json, version: string, image: string)
    ensures var doc' := MergePatch(doc, VersionPatch(version, image));
            DesiredUpdate(doc') == Some(Release(version, image)) && Channel(doc') == Channel(doc)
  {
    var v := Obj(map["version" := Str(version), "image" := if image == "" then Null else Str(image)]);
    SpecPatchIsLocal(doc, "desiredUpdate", v);
    MergedField(Field(Field(doc, "spec"), "desiredUpdate"), v, "image");
    MergedField(Field(Field(doc, "spec"), "desiredUpdate"), v, "version");
  }

  /** The channel patch never touches the committed update. */
  lemma ChannelPatchEffect(doc: Json, channel: string)
    ensures var doc' := MergePatch(doc, ChannelPatch(channel));
            DesiredUpdate(doc') == DesiredUpdate(doc) && Channel(doc') == channel
  {
    SpecPatchIsLocal(doc, "channel", Str(channel));
  }

  /** The release offers the version together with a usable image. */
  predicate Offers(r: Release, version: string) {
    r.version == version && r.image != ""
  }

  predicate Offered(us: Updates, version: string) {
    || (exists i :: 0 <= i < |us.available| && Offers(us.available[i], version))
    || (exists i :: 0 <= i < |us.conditional| && Offers(us.conditional[i], version))
  }

  /** Position of the last release that offers the version, or -1. */
  function LastOffer(rs: seq<Release>, version: string): (i: int)
    ensures -1 <= i < |rs|
    ensures 0 <= i ==> Offers(rs[i], version)
    ensures forall j :: i < j < |rs| ==> !Offers(rs[j], version)
  {
    if rs == [] then -1
    else if Offers(rs[|rs| - 1], version) then |rs| - 1
    else LastOffer(rs[..|rs| - 1], version)
  }

  /** The image the version patch must carry: that of the last conditional offer, or none. */
  function ConditionalImage(rs: seq<Release>, version: string): string {
    var i := LastOffer(rs, version);
    if i < 0 then "" else rs[i].image
  }

  /** The outcomes of the remote calls one EnsureDesiredConfig makes, and what it re-reads. */
  datatype Calls = Calls(readOk: bool, channelPatch: Fault, rereadOk: bool, reread: Updates, updatePatch: Fault)

  /** What one EnsureDesiredConfig leaves behind: the document, its two results, and whether
      a desiredUpdate patch took effect. */
  datatype Ensured = Ensured(doc: Json, err: bool, triggered: bool, patched: bool)

  function EnsureDesired(doc: Json, us: Updates, d: Desired, c: Calls): Ensured {
    if !c.readOk then Ensured(doc, true, false, false)
    else match UpgradeSource(d)
      case None => Ensured(doc, true, false, false)
      case Some(WithImage) =>
        var u := DesiredUpdate(doc);
        if u.Some? && u.value.image == d.image then Ensured(doc, false, true, false)
        else Commit(doc, ImagePatch(d.image), c.updatePatch)
      case Some(WithChannelVersion) =>
        if Channel(doc) == d.channel then ChooseUpdate(doc, us, d, c.updatePatch)
        else
          var doc1 := if c.channelPatch.Lands() then MergePatch(doc, ChannelPatch(d.channel)) else doc;
          if !c.channelPatch.Succeeds() || !c.rereadOk then Ensured(doc1, true, false, false)
          else ChooseUpdate(doc1, c.reread, d, c.updatePatch)
  }

  function ChooseUpdate(doc: Json, us: Updates, d: Desired, f: Fault): Ensured {
    if Offered(us, d.version)
    then Commit(doc, VersionPatch(d.version, ConditionalImage(us.conditional, d.version)), f)
    else Ensured(doc, false, false, false)
  }

  function Commit(doc: Json, patch: Json, f: Fault): Ensured {
    Ensured(if f.Lands() then MergePatch(doc, patch) else doc, !f.Succeeds(), f.Succeeds(), f.Lands())
  }

  /** What a call may leave behind, relative to the document and the offers it saw. */
  ghost predicate Honours(e: Ensured, doc: Json, us: Updates, d: Desired) {
    && (e.triggered ==> !e.err && Commenced(e.doc, d))
    && (e.patched ==> Commenced(e.doc, d))
    && (!e.patched ==> DesiredUpdate(e.doc) == DesiredUpdate(doc))
    && (!e.triggered && !e.err ==> !e.patched)
    && (e.patched ==> IsRequest(DesiredUpdate(e.doc), us, d))
  }

  /** The committed update is the requested image alone, or the requested version that was on
      offer, with the image of its last conditional offer if there is one. */
  ghost predicate IsRequest(u: Option<Release>, us: Updates, d: Desired) {
    if d.image != "" then u == Some(Release("", d.image))
    else u.Some? && u.value.version == d.version && Offered(us, d.version)
         && u.value.image == ConditionalImage(us.conditional, d.version)
  }

  lemma ChooseUpdateHonours(doc: Json, us: Updates, d: Desired, f: Fault)
    requires UpgradeSource(d) == Some(WithChannelVersion)
    ensures Honours(ChooseUpdate(doc, us, d, f), doc, us, d)
  {
    VersionPatchEffect(doc, d.version, ConditionalImage(us.conditional, d.version));
  }

  lemma ImageCommitHonours(doc: Json, us: Updates, d: Desired, f: Fault)
    requires UpgradeSource(d) == Some(WithImage)
    ensures Honours(Commit(doc, ImagePatch(d.image), f), doc, us, d)
  {
    ImagePatchEffect(doc, d.image);
  }

  /** The offers EnsureDesiredConfig decides on: re-read whenever it had to move the channel first. */
  function OffersSeen(doc: Json, us: Updates, d: Desired, c: Calls): Updates {
    if Channel(doc) == d.channel then us else c.reread
  }

  /** No going back, at the level of one call: a true result is a commitment to exactly the request,
      and without an effective patch nothing is committed; in particular a false result without
      error leaves desiredUpdate alone. */
  lemma EnsureDesiredHonours(doc: Json, us: Updates, d: Desired, c: Calls)
    ensures Honours(EnsureDesired(doc, us, d, c), doc, OffersSeen(doc, us, d, c), d)
  {
    match UpgradeSource(d)
    case None =>
    case Some(WithImage) =>
      ImageCommitHonours(doc, OffersSeen(doc, us, d, c), d, c.updatePatch);
    case Some(WithChannelVersion) =>
      if Channel(doc) == d.channel {
        ChooseUpdateHonours(doc, us, d, c.updatePatch);
      } else {
        ChannelPatchEffect(doc, d.channel);
        ChooseUpdateHonours(MergePatch(doc, ChannelPatch(d.channel)), c.reread, d, c.updatePatch);
      }
  }

  // ---- When a call must patch, succeed or fail ----------------------------------------------------------------------

  /** Some recommended or conditional update is this version with an image. */
  predicate OnOffer(us: Updates, version: string) {
    || (exists i :: 0 <= i < |us.available| && us.available[i].version == version && us.available[i].image != "")
    || (exists i :: 0 <= i < |us.conditional| && us.conditional[i].version == version && us.conditional[i].image != "")
  }

  /** The image to send along with a version: that of the last conditional update which is this version and has one. */
  predicate RightImage(image: string, rs: seq<Release>, version: string) {
    if exists i :: 0 <= i < |rs| && rs[i].version == version && rs[i].image != ""
    then exists i :: && 0 <= i < |rs| && rs[i] == Release(version, image) && image != ""
                     && forall j :: i < j < |rs| && rs[j].version == version ==> rs[j].image == ""
    else image == ""
  }

  predicate HasImage(doc: Json, image: string) {
    DesiredUpdate(doc).Some? && DesiredUpdate(doc).value.image == image
  }

  predicate NamesVersion(d: Desired) {
    d.image == "" && d.channel != "" && d.version != ""
  }

  /** The offers could be had: the channel was set already, or it was set and the ClusterVersion read again. */
  predicate OffersRead(doc: Json, d: Desired, c: Calls) {
    Channel(doc) == d.channel || (c.channelPatch.Applied? && c.rereadOk)
  }

  /** The call comes to patch desiredUpdate: with an image that is not committed yet, or with a version on offer. */
  predicate ComesToPatch(doc: Json, us: Updates, d: Desired, c: Calls) {
    && c.readOk
    && (d.image != "" ==> !HasImage(doc, d.image))
    && (d.image == "" ==>
          && NamesVersion(d) && OffersRead(doc, d, c)
          && OnOffer(if Channel(doc) == d.channel then us else c.reread, d.version))
  }

  /** The call returns true. */
  predicate Triggers(doc: Json, us: Updates, d: Desired, c: Calls) {
    || (c.readOk && d.image != "" && HasImage(doc, d.image))
    || (ComesToPatch(doc, us, d, c) && c.updatePatch.Applied?)
  }

  /** The call returns an error: nothing to go by, or one of the calls it made failed. */
  predicate Errs(doc: Json, us: Updates, d: Desired, c: Calls) {
    || !c.readOk
    || (d.image == "" && !NamesVersion(d))
    || (d.image == "" && !OffersRead(doc, d, c))
    || (ComesToPatch(doc, us, d, c) && !c.updatePatch.Applied?)
  }

  lemma ConditionalImageIsRight(rs: seq<Release>, version: string)
    ensures RightImage(ConditionalImage(rs, version), rs, version)
  {
    var i := LastOffer(rs, version);
    if i >= 0 {
      assert rs[i] == Release(version, rs[i].image);
    }
  }

  /** What a call leaves behind, in terms of what it was given: exactly when it returns true, exactly when it errs,
      the desiredUpdate it leaves, and the channel. In particular a version that is offered only conditionally is
      patched too. */
  lemma EnsureDesiredExactly(doc: Json, us: Updates, d: Desired, c: Calls)
    ensures var e := EnsureDesired(doc, us, d, c);
            && (e.triggered <==> Triggers(doc, us, d, c))
            && (e.err <==> Errs(doc, us, d, c))
            && (if !ComesToPatch(doc, us, d, c) || c.updatePatch.Refused? then DesiredUpdate(e.doc) == DesiredUpdate(doc)
                else if d.image != "" then DesiredUpdate(e.doc) == Some(Release("", d.image))
                else
                  var u := DesiredUpdate(e.doc);
                  && u.Some? && u.value.version == d.version
                  && RightImage(u.value.image, (if Channel(doc) == d.channel then us else c.reread).conditional, d.version))
            && Channel(e.doc) == (
                 if c.readOk && NamesVersion(d) && !c.channelPatch.Refused? then d.channel else Channel(doc))
  {
    hide MergePatch, DesiredUpdate, Channel, ConditionalImage, RightImage, ImagePatch, ChannelPatch, VersionPatch;
    ChannelPatchEffect(doc, d.channel);
    ImagePatchEffect(doc, d.image);
    ConditionalImageIsRight(OffersSeen(doc, us, d, c).conditional, d.version);
    var image := ConditionalImage(OffersSeen(doc, us, d, c).conditional, d.version);
    VersionPatchEffect(doc, d.version, image);
    VersionPatchEffect(MergePatch(doc, ChannelPatch(d.channel)), d.version, image);
  }

  /** A commitment survives every further call made for the same spec, whatever that call's faults. */
  lemma CommitmentIsKept(doc: Json, us: Updates, d: Desired, c: Calls)
    requires Commenced(doc, d)
    ensures Commenced(EnsureDesired(doc, us, d, c).doc, d)
  {
    EnsureDesiredHonours(doc, us, d, c);
  }

  /** The client that patches the ClusterVersion in place. */
  class Client {
    var doc: Json
    var updates: Updates

    constructor (doc: Json, updates: Updates)
      ensures this.doc == doc && this.updates == updates
    {
      this.doc, this.updates := doc, updates;
    }

    method Patch(patch: Json, f: Fault) returns (ok: bool)
      modifies this`doc
      ensures doc == if f.Lands() then MergePatch(old(doc), patch) else old(doc)
      ensures ok == f.Succeeds()
    {
      if f.Lands() {
        doc := MergePatch(doc, patch);
      }
      ok := f.Succeeds();
    }

    method EnsureDesiredConfig(d: Desired, c: Calls) returns (err: bool, triggered: bool)
      modifies this
      ensures var e := EnsureDesired(old(doc), old(updates), d, c);
              doc == e.doc && err == e.err && triggered == e.triggered
      ensures triggered ==> Commenced(doc, d)
      ensures !triggered && !err ==> DesiredUpdate(doc) == DesiredUpdate(old(doc))
      ensures triggered <==> Triggers(old(doc), old(updates), d, c)
      ensures err <==> Errs(old(doc), old(updates), d, c)
    {
      EnsureDesiredHonours(doc, updates, d, c);
      EnsureDesiredExactly(doc, updates, d, c);
      if !c.readOk {
        return true, false;
      }
      var source := UpgradeSource(d);
      if source == None {
        return true, false;
      }
      if source == Some(WithImage) {
        err, triggered := RunUpgradeWithImage(d, c);
      } else {
        err, triggered := RunUpgradeWithChannelVersion(d, c);
      }
    }

    method RunUpgradeWithImage(d: Desired, c: Calls) returns (err: bool, triggered: bool)
      requires c.readOk && UpgradeSource(d) == Some(WithImage)
      modifies this`doc
      ensures var e := EnsureDesired(old(doc), old(updates), d, c);
              doc == e.doc && err == e.err && triggered == e.triggered
      ensures triggered <==> HasImage(old(doc), d.image) || c.updatePatch.Applied?
      ensures err <==> !triggered
      ensures DesiredUpdate(doc) ==
              if HasImage(old(doc), d.image) || c.updatePatch.Refused? then DesiredUpdate(old(doc))
              else Some(Release("", d.image))
    {
      ImagePatchEffect(doc, d.image);
      var u := DesiredUpdate(doc);
      if u == None || u.value.image != d.image {
        var ok := Patch(ImagePatch(d.image), c.updatePatch);
        if !ok {
          return true, false;
        }
      }
      return false, true;
    }

    method RunUpgradeWithChannelVersion(d: Desired, c: Calls) returns (err: bool, triggered: bool)
      requires c.readOk && UpgradeSource(d) == Some(WithChannelVersion)
      modifies this
      ensures var e := EnsureDesired(old(doc), old(updates), d, c);
              doc == e.doc && err == e.err && triggered == e.triggered
      ensures updates == if Channel(old(doc)) != d.channel && OffersRead(old(doc), d, c) then c.reread else old(updates)
      ensures triggered <==> OffersRead(old(doc), d, c) && OnOffer(updates, d.version) && c.updatePatch.Applied?
      ensures err <==> !OffersRead(old(doc), d, c) || (OnOffer(updates, d.version) && !c.updatePatch.Applied?)
    {
      if Channel(doc) != d.channel {
        var ok := Patch(ChannelPatch(d.channel), c.channelPatch);
        if !ok {
          return true, false;
        }
        if !c.rereadOk {
          return true, false;
        }
        updates := c.reread;
      }
      var available, image := FindUpdate(updates, d.version);
      if !available {
        return false, false;
      }
      var ok := Patch(VersionPatch(d.version, image), c.updatePatch);
      return !ok, ok;
    }
  }

  /** The two scans of the published updates. */
  method FindUpdate(us: Updates, version: string) returns (available: bool, image: string)
    ensures available <==> Offered(us, version)
    ensures image == ConditionalImage(us.conditional, version)
    ensures available <==> OnOffer(us, version)
    ensures RightImage(image, us.conditional, version)
  {
    ConditionalImageIsRight(us.conditional, version);
    available, image := false, "";
    for i := 0 to |us.available|
      invariant available <==> exists j :: 0 <= j < i && Offers(us.available[j], version)
    {
      if Offers(us.available[i], version) {
        available := true;
      }
    }
    ghost var recommended := available;
    for i := 0 to |us.conditional|
      invariant available <==> recommended || exists j :: 0 <= j < i && Offers(us.conditional[j], version)
      invariant image == ConditionalImage(us.conditional[..i], version)
    {
      assert us.conditional[..i + 1][..i] == us.conditional[..i];
      if Offers(us.conditional[i], version) {
        available := true;
        image := us.conditional[i].image;
      }
    }
    assert us.conditional[..|us.conditional|] == us.conditional;
  }
}
