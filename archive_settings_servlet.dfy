/** The archive-settings endpoint (`ArchiveSettingsServlet`): GET reports the
    node name and the two provider lists; PUT updates each of them from an
    optional request parameter (trimmed, ignored when blank, the lists split on
    commas) and says whether anything was updated. */
module ArchiveSettings {
  import opened JavaLang

  const NodeNameParam := "nodeName"
  const DimProvidersParam := "dimProviders"
  const DefaultStorageParam := "defaultStorage"
  const NoChangesMessage := "no changes made"

  /** The archive section of the server settings, as a value. */
  datatype ArchiveState = ArchiveState(nodeName: string, dimProviders: seq<string>, defaultStorage: seq<string>)

  /** What PUT answers: `success: true`, or a warning. */
  datatype Response = Success | Warning(message: string)

  /** A value reported by GET. */
  datatype Setting = Text(text: string) | Names(names: seq<string>)

  /** The archive settings object the servlet updates through its setters. */
  class Archive {
    var nodeName: string
    var dimProviders: seq<string>
    var defaultStorage: seq<string>

    constructor (nodeName: string, dimProviders: seq<string>, defaultStorage: seq<string>)
      ensures State() == ArchiveState(nodeName, dimProviders, defaultStorage)
    {
      this.nodeName := nodeName;
      this.dimProviders := dimProviders;
      this.defaultStorage := defaultStorage;
    }

    function State(): ArchiveState
      reads this
    {
      ArchiveState(nodeName, dimProviders, defaultStorage)
    }

    method SetNodeName(name: string)
      modifies this
      ensures State() == old(State()).(nodeName := name)
    {
      nodeName := name;
    }

    method SetDimProviders(names: seq<string>)
      modifies this
      ensures State() == old(State()).(dimProviders := names)
    {
      dimProviders := names;
    }

    method SetDefaultStorage(names: seq<string>)
      modifies this
      ensures State() == old(State()).(defaultStorage := names)
    {
      defaultStorage := names;
    }
  }

  /** What a request parameter contributes: its trimmed value, when it is
      present and not blank. */
  function Given(params: map<string, string>, name: string): (r: Option<string>)
    ensures r.Some? <==> name in params && !AllTrimmed(params[name])
    ensures r.Some? ==> r.value == Trim(params[name]) && r.value != ""
  {
    if name in params && Trim(params[name]) != "" then Some(Trim(params[name])) else None
  }

  /** The settings after a PUT with the given parameters. */
  function Updated(a: ArchiveState, params: map<string, string>): ArchiveState {
    var n := Given(params, NodeNameParam);
    var d := Given(params, DimProvidersParam);
    var s := Given(params, DefaultStorageParam);
    ArchiveState(if n.Some? then n.value else a.nodeName,
                 if d.Some? then Split(d.value) else a.dimProviders,
                 if s.Some? then Split(s.value) else a.defaultStorage)
  }

  /** Whether a PUT with the given parameters reports a change. */
  predicate Changed(params: map<string, string>) {
    Given(params, NodeNameParam).Some? || Given(params, DimProvidersParam).Some?
    || Given(params, DefaultStorageParam).Some?
  }

  /** What GET reports for the given settings, in order. */
  function Report(a: ArchiveState): seq<(string, Setting)> {
    [(NodeNameParam, Text(a.nodeName)), (DimProvidersParam, Names(a.dimProviders)),
     (DefaultStorageParam, Names(a.defaultStorage))]
  }

  /** `doPut` */
  method DoPut(archive: Archive, params: map<string, string>) returns (response: Response)
    modifies archive
    ensures archive.State() == Updated(old(archive.State()), params)
    ensures response == if Changed(params) then Success else Warning(NoChangesMessage)
  {
    var changed := false;
    if NodeNameParam in params {
      var nodeName := Trim(params[NodeNameParam]);
      if nodeName != "" {
        archive.SetNodeName(nodeName);
        changed := true;
      }
    }
    if DimProvidersParam in params {
      var dimProviders := Trim(params[DimProvidersParam]);
      if dimProviders != "" {
        archive.SetDimProviders(Split(dimProviders));
        changed := true;
      }
    }
    if DefaultStorageParam in params {
      var defaultStorage := Trim(params[DefaultStorageParam]);
      if defaultStorage != "" {
        archive.SetDefaultStorage(Split(defaultStorage));
        changed := true;
      }
    }
    if changed {
      response := Success;
    } else {
      response := Warning(NoChangesMessage);
    }
  }

  /** `doGet` */
  method DoGet(archive: Archive) returns (pairs: seq<(string, Setting)>)
    ensures pairs == Report(archive.State())
    ensures |pairs| == 3 && pairs[0].0 == NodeNameParam && pairs[1].0 == DimProvidersParam
      && pairs[2].0 == DefaultStorageParam
  {
    pairs := [];
    pairs := pairs + [(NodeNameParam, Text(archive.nodeName))];
    pairs := pairs + [(DimProvidersParam, Names(archive.dimProviders))];
    pairs := pairs + [(DefaultStorageParam, Names(archive.defaultStorage))];
  }

  // -----------------------------------------------------------------------
  // Properties
  // -----------------------------------------------------------------------

  /** A field whose parameter is absent or blank keeps its value. */
  lemma AbsentOrBlankKeeps(a: ArchiveState, params: map<string, string>)
    ensures (NodeNameParam !in params || AllTrimmed(params[NodeNameParam]))
      ==> Updated(a, params).nodeName == a.nodeName
    ensures (DimProvidersParam !in params || AllTrimmed(params[DimProvidersParam]))
      ==> Updated(a, params).dimProviders == a.dimProviders
    ensures (DefaultStorageParam !in params || AllTrimmed(params[DefaultStorageParam]))
      ==> Updated(a, params).defaultStorage == a.defaultStorage
  {
  }

  /** A stored node name is never blank and carries no surrounding white space. */
  lemma StoredNodeNameTrimmed(a: ArchiveState, params: map<string, string>)
    requires NodeNameParam in params && !AllTrimmed(params[NodeNameParam])
    ensures Updated(a, params).nodeName == Trim(params[NodeNameParam])
    ensures Updated(a, params).nodeName != ""
    ensures Trim(Updated(a, params).nodeName) == Updated(a, params).nodeName
  {
    TrimIdempotent(params[NodeNameParam]);
  }

  /** A stored provider list consists of comma-free names that, joined back
      with commas, give the trimmed parameter less any trailing commas. */
  lemma StoredProvidersSplit(a: ArchiveState, params: map<string, string>, name: string)
    requires name == DimProvidersParam || name == DefaultStorageParam
    requires name in params && !AllTrimmed(params[name])
    ensures var stored := if name == DimProvidersParam then Updated(a, params).dimProviders
                          else Updated(a, params).defaultStorage;
      var t := Trim(params[name]);
      stored == Split(t)
      && (forall i :: 0 <= i < |stored| ==> CommaFree(stored[i]))
      && |Unsplit(stored)| <= |t| && t == Unsplit(stored) + Commas(|t| - |Unsplit(stored)|)
  {
    StoredIsSplit(a, params, name);
  }

  lemma StoredIsSplit(a: ArchiveState, params: map<string, string>, name: string)
    requires name == DimProvidersParam || name == DefaultStorageParam
    requires name in params && !AllTrimmed(params[name])
    ensures (if name == DimProvidersParam then Updated(a, params).dimProviders
             else Updated(a, params).defaultStorage) == Split(Trim(params[name]))
  {
    assert Given(params, name) == Some(Trim(params[name]));
  }

  /** Repeating a PUT changes nothing more. */
  lemma PutIdempotent(a: ArchiveState, params: map<string, string>)
    ensures Updated(Updated(a, params), params) == Updated(a, params)
  {
  }

  /** When the warning is sent, the settings are as they were. */
  lemma WarningLeavesSettings(a: ArchiveState, params: map<string, string>)
    ensures !Changed(params) ==> Updated(a, params) == a
  {
  }

  /** A change is reported even when the new value equals the old one. */
  lemma ChangedEvenIfSame()
    ensures var a := ArchiveState("dicoogle", ["lucene"], ["filestorage"]);
      var params := map[NodeNameParam := " dicoogle "];
      Changed(params) && Updated(a, params) == a
  {
    var params := map[NodeNameParam := " dicoogle "];
    PaddedNameTrims(params[NodeNameParam]);
    assert Given(params, NodeNameParam) == Some("dicoogle");
    assert Given(params, DimProvidersParam) == None && Given(params, DefaultStorageParam) == None;
  }

  lemma PaddedNameTrims(s: string)
    requires s == " dicoogle "
    ensures Trim(s) == "dicoogle"
  {
    var pad, t := [' '], "dicoogle";
    assert AllTrimmed(pad) && t[0] == 'd' && t[|t| - 1] == 'e';
    TrimOfPadded(pad, t, pad);
    assert pad + t + pad == s;
  }

  /** GET after PUT reports the updated values, node name first. */
  lemma ReportAfterPut(a: ArchiveState, params: map<string, string>)
    ensures Report(Updated(a, params))[0] == (NodeNameParam, Text(Updated(a, params).nodeName))
    ensures Given(params, NodeNameParam).Some? ==>
      Report(Updated(a, params))[0].1 == Text(Trim(params[NodeNameParam]))
    ensures Given(params, DimProvidersParam).Some? ==>
      Report(Updated(a, params))[1].1 == Names(Split(Trim(params[DimProvidersParam])))
    ensures Given(params, DefaultStorageParam).Some? ==>
      Report(Updated(a, params))[2].1 == Names(Split(Trim(params[DefaultStorageParam])))
  {
  }
}
