/** Serial interfaces (proxmox/config_qemu_serial.go). */
module SerialConfig {
  import opened Text
  import opened Keys
  import opened ApiParams

  datatype SerialInterface = SerialInterface(delete: bool, path: string, socket: bool)

  type SerialInterfaces = map<nat, SerialInterface>

  ghost predicate Visits(order: seq<nat>, ports: SerialInterfaces) {
    && (forall i :: i in order <==> i in ports)
    && (forall a, b | 0 <= a < b < |order| :: order[a] != order[b])
  }

  function PortText(port: SerialInterface): string { if port.socket then "socket" else port.path }

  /** A port is written when it is new or differs from the current one. */
  predicate Sets(config: SerialInterfaces, current: SerialInterfaces, id: nat) {
    id in config && !config[id].delete &&
    (id in current ==> current[id].path != config[id].path || current[id].socket != config[id].socket)
  }

  /** A port is deleted when asked for and there is one. */
  predicate Deletes(config: SerialInterfaces, current: SerialInterfaces, id: nat) {
    id in config && config[id].delete && id in current
  }

  function DeletedKeys(config: SerialInterfaces, current: SerialInterfaces, order: seq<nat>): seq<Key> {
    if order == [] then []
    else
      var id := order[|order| - 1];
      DeletedKeys(config, current, order[..|order| - 1]) + (if Deletes(config, current, id) then [Serial(id)] else [])
  }

  ghost predicate Passed(config: SerialInterfaces, current: SerialInterfaces, visited: seq<nat>,
                         base: map<Key, Value>, values: map<Key, Value>, delete: string)
  {
    && (forall k :: k in values <==> k in base || (k.Serial? && k.id in visited && Sets(config, current, k.id)))
    && (forall k | k in values ::
         values[k] == if k.Serial? && k.id in visited && Sets(config, current, k.id)
                      then SetText(PortText(config[k.id])) else base[k])
    && delete == CommaText(DeletedKeys(config, current, visited))
  }

  lemma PassStep(config: SerialInterfaces, current: SerialInterfaces, visited: seq<nat>, id: nat, base: map<Key, Value>,
                 values: map<Key, Value>, delete: string, values': map<Key, Value>, delete': string)
    requires id in config && id !in visited && Passed(config, current, visited, base, values, delete)
    requires values' == if Sets(config, current, id) then values[Serial(id) := SetText(PortText(config[id]))]
             else values
    requires delete' == delete + if Deletes(config, current, id) then "," + Name(Serial(id)) else ""
    ensures Passed(config, current, visited + [id], base, values', delete')
  {
    DeleteStep(config, current, visited, id);
  }

  lemma DeleteStep(config: SerialInterfaces, current: SerialInterfaces, visited: seq<nat>, id: nat)
    ensures CommaText(DeletedKeys(config, current, visited + [id])) ==
            CommaText(DeletedKeys(config, current, visited)) + if Deletes(config, current, id) then
            "," + Name(Serial(id)) else ""
  {
    var keys := DeletedKeys(config, current, visited);
    assert (visited + [id])[..|visited|] == visited;
    if Deletes(config, current, id) {
      CommaSnoc(keys, Serial(id));
    } else {
      assert keys + [] == keys && CommaText(keys) + "" == CommaText(keys);
    }
  }

  /** `SerialInterfaces.mapToAPI`: the ports are visited in the unspecified order of a Go map. */
  method MapToApi(config: SerialInterfaces, current: SerialInterfaces, params: Params)
    returns (delete: string, ghost order: seq<nat>)
    modifies params
    ensures Visits(order, config)
    ensures Passed(config, current, order, old(params.values), params.values, delete)
  {
    delete, order := "", [];
    var todo := config.Keys;
    ghost var base := params.values;
    while todo != {}
      invariant todo <= config.Keys
      invariant forall i :: i in order <==> i in config && i !in todo
      invariant forall a, b | 0 <= a < b < |order| :: order[a] != order[b]
      invariant Passed(config, current, order, base, params.values, delete)
    {
      var id :| id in todo;
      var port := config[id];
      ghost var values, before := params.values, delete;
      if id in current {
        if port.delete {
          delete := delete + ("," + Name(Serial(id)));
        } else if current[id].path != port.path || current[id].socket != port.socket {
          params.values := params.values[Serial(id) := SetText(PortText(port))];
        }
      } else if !port.delete {
        params.values := params.values[Serial(id) := SetText(PortText(port))];
      }
      assert before + "" == before;
      PassStep(config, current, order, id, base, values, before, params.values, delete);
      order := order + [id];
      todo := todo - {id};
    }
  }

  lemma {:induction false} DeletedKey(config: SerialInterfaces, current: SerialInterfaces, order: seq<nat>, k: Key)
    ensures k in DeletedKeys(config, current, order) <==> k.Serial? && k.id in order && Deletes(config, current, k.id)
  {
    if order != [] {
      var n := |order| - 1;
      DeletedKey(config, current, order[..n], k);
      assert order == order[..n] + [order[n]];
    }
  }

  const PORT_COUNT: nat := 4

  /** `SerialInterface.mapToSDK`. */
  function ReadPort(text: string): SerialInterface {
    if text == "socket" then SerialInterface(false, "", true) else SerialInterface(false, text, false)
  }

  /** `SerialInterfaces.mapToSDK`. */
  function Read(texts: map<Key, string>): SerialInterfaces {
    map i: nat | i < PORT_COUNT && Serial(i) in texts :: ReadPort(texts[Serial(i)])
  }

  /** The ports are as asked for: removed, a socket, or at their path; those that are not named stay. */
  predicate PortAsAsked(config: SerialInterfaces, before: map<Key, string>, after: map<Key, string>, i: nat) {
    TextAt(after, Serial(i)) ==
    if i !in config then TextAt(before, Serial(i))
    else if config[i].delete then None
    else if config[i].socket then Some("socket")
    else Some(config[i].path)
  }

  /** `SerialInterfaces.Validate`, up to the exact syntax of paths. */
  predicate Valid(config: SerialInterfaces) {
    forall i | i in config :: i < PORT_COUNT && (!config[i].delete ==> (config[i].socket <==> config[i].path == ""))
  }

  /** What a call leaves of a port. */
  predicate CallPatches(config: SerialInterfaces, current: SerialInterfaces, before: map<Key, string>,
                        after: map<Key, string>, i: nat) {
    Patched(before, after, Serial(i),
            if Sets(config, current, i) then Some(SetText(PortText(config[i]))) else None, Deletes(config, current, i))
  }

  lemma CallIsAsAsked(config: SerialInterfaces, before: map<Key, string>, after: map<Key, string>, i: nat)
    requires Valid(config) && CallPatches(config, Read(before), before, after, i)
    ensures PortAsAsked(config, before, after, i)
  {
  }

  /** No port is deleted twice. */
  lemma {:induction false} DeletedOnce(config: SerialInterfaces, current: SerialInterfaces, order: seq<nat>)
    requires forall a, b | 0 <= a < b < |order| :: order[a] != order[b]
    ensures Once(DeletedKeys(config, current, order))
  {
    if order != [] {
      var n := |order| - 1;
      DeletedOnce(config, current, order[..n]);
      DeletedKey(config, current, order[..n], Serial(order[n]));
    }
  }
}

/** The TPM state disk (proxmox/config_qemu_tpm.go). */
module TpmConfig {
  import opened Text
  import opened Keys
  import opened ApiParams
  import opened DiskPlan

  datatype TpmState = TpmState(delete: bool, storage: string, version: Option<string>)

  /** `TpmVersion.mapToApi`. */
  function VersionText(version: string): string {
    if version == "v1.2" || version == "1.2" then version
    else if version == "v2.0" || version == "v2" || version == "2.0" || version == "2" then "v2.0"
    else ""
  }

  /** `TpmState.Validate`. */
  predicate Valid(t: TpmState, current: Option<TpmState>) {
    t.storage != "" && if t.version.None? then current.Some? else VersionText(t.version.value) != ""
  }

  /** The two versions under their names. */
  lemma VersionTexts()
    ensures forall v :: VersionText(v) ==
              if v in {"v2.0", "v2", "2.0", "2"} then "v2.0" else if v in {"v1.2", "1.2"} then v else ""
  {
  }

  datatype TpmChange = Nothing | Recreate | Move(disk: DiskMove)

  /** `TpmState.markChanges`: another version needs a new state, another storage a move. The
      current state has a version whenever it is read from the server. */
  function MarkChanges(t: TpmState, current: TpmState): TpmChange
    requires current.version.Some?
  {
    if t.delete then Nothing
    else if t.version.Some? && VersionText(t.version.value) != current.version.value then Recreate
    else if t.storage != current.storage then Move(DiskMove(None, Key.TpmState, t.storage))
    else Nothing
  }

  /** `TpmState.mapToApi`. */
  method MapToApi(t: TpmState, current: Option<TpmState>, params: Params) returns (delete: string)
    requires !t.delete && current.None? ==> t.version.Some?
    modifies params
    ensures delete == if t.delete then "tpmstate0" else ""
    ensures params.values ==
            if !t.delete && current.None?
            then old(params.values)[Key.TpmState := SetTpm(t.storage, VersionText(t.version.value))]
            else old(params.values)
  {
    if t.delete {
      return "tpmstate0";
    }
    if current.None? {
      params.values := params.values[Key.TpmState := SetTpm(t.storage, VersionText(t.version.value))];
    }
    return "";
  }
}
