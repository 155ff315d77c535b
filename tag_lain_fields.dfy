/** The tag_lain_fields processor: tag each event with the lain application, process and instance
    of the container that produced it, from a table kept up to date by watching lainlet. */
module TagLainFields {
  import opened Common
  import opened Events

  datatype ContainerInfo = ContainerInfo(appName: string, procName: string, instanceNo: int)

  /** The table of known containers, swapped as a whole by the watcher. */
  class DataHolder {
    var data: map<string, ContainerInfo>

    constructor ()
      ensures data == map[]
    {
      data := map[];
    }
  }

  /** The event `data` becomes once its container_id (a string) has been looked up in `known`:
      a known, non-empty id is replaced by the container's app, proc and instance number; any
      other id stays and the event is tagged "public". Nothing else changes. */
  function Tagged(data: map<string, Value>, known: map<string, ContainerInfo>): (r: map<string, Value>)
    requires "container_id" in data && data["container_id"].Str?
    ensures "app_name" in r && "proc_name" in r
    ensures forall key :: key != "app_name" && key != "proc_name" && key != "instance_no" && key != "container_id" ==>
      (key in r <==> key in data) && (key in r ==> r[key] == data[key])
    ensures var id := data["container_id"].s;
      id in known && id != "" ==>
        && r["app_name"] == Str(known[id].appName)
        && r["proc_name"] == Str(known[id].procName)
        && "instance_no" in r && r["instance_no"] == Int(known[id].instanceNo)
        && "container_id" !in r
    ensures var id := data["container_id"].s;
      !(id in known && id != "") ==>
        && r["app_name"] == Str("public") && r["proc_name"] == Str("public")
        && ("instance_no" in r <==> "instance_no" in data)
        && ("instance_no" in r ==> r["instance_no"] == data["instance_no"])
        && "container_id" in r && r["container_id"] == data["container_id"]
  {
    var id := data["container_id"].s;
    if id in known && id != "" then
      var info := known[id];
      (data["app_name" := Str(info.appName)]["proc_name" := Str(info.procName)]["instance_no" := Int(info.instanceNo)])
        - {"container_id"}
    else
      data["app_name" := Str("public")]["proc_name" := Str("public")]
  }

  // ---- short container ids ----

  predicate IsIdChar(c: char) {
    ('a' <= c <= 'z') || ('0' <= c <= '9')
  }

  /** The expression ^.{width}/([a-z0-9]{12})[a-z0-9]+$ applied to a watch key: `width` characters
      other than a newline, a slash, then at least 13 id characters of which the first 12 are
      captured. */
  function ShortId(key: string, width: nat): (r: Option<string>)
    ensures r.Some? ==> |r.value| == 12 && forall i :: 0 <= i < 12 ==> IsIdChar(r.value[i])
  {
    if |key| >= width + 14
       && (forall i :: 0 <= i < width ==> key[i] != '\n')
       && key[width] == '/'
       && (forall i :: width < i < |key| ==> IsIdChar(key[i]))
    then Some(key[width + 1..width + 13])
    else None
  }

  /** A key built from a host name and a container id of at least 13 id characters yields the id's
      first 12 characters when the width is the host name's length in characters. */
  lemma ShortIdRoundTrip(host: string, id: string)
    requires forall i :: 0 <= i < |host| ==> host[i] != '\n'
    requires |id| >= 13 && forall i :: 0 <= i < |id| ==> IsIdChar(id[i])
    ensures ShortId(host + "/" + id, |host|) == Some(id[..12])
  {
    var key := host + "/" + id;
    assert key[|host|] == '/';
    assert forall i :: |host| < i < |key| ==> key[i] == id[i - |host| - 1];
    assert key[|host| + 1..|host| + 13] == id[..12];
  }

  /** Conversely every key that yields a short id is a prefix of `width` characters, a slash and a
      container id that starts with that short id. */
  lemma ShortIdShape(key: string, width: nat)
    requires ShortId(key, width).Some?
    ensures key == key[..width] + "/" + key[width + 1..]
    ensures |key[width + 1..]| >= 13 && key[width + 1..][..12] == ShortId(key, width).value
    ensures forall i :: width < i < |key| ==> IsIdChar(key[i])
  {
    assert key == key[..width] + [key[width]] + key[width + 1..];
  }

  /** len() of a Go string: its length in UTF-8 bytes. */
  function Utf8Length(s: string): (n: nat)
    ensures n >= |s|
  {
    if s == [] then 0
    else
      var c := s[|s| - 1] as int;
      Utf8Length(s[..|s| - 1]) + (if c < 0x80 then 1 else if c < 0x800 then 2 else if c < 0x10000 then 3 else 4)
  }

  /** For an ASCII host name the byte length is the character length, so the expression built from
      len(hostName) matches the keys of that host. */
  lemma {:induction false} AsciiHostWidth(host: string)
    requires forall i :: 0 <= i < |host| ==> host[i] as int < 0x80
    ensures Utf8Length(host) == |host|
  {
    if host != [] {
      AsciiHostWidth(host[..|host| - 1]);
    }
  }

  lemma {:induction false} NonAsciiIsWider(host: string, j: nat)
    requires j < |host| && host[j] as int >= 0x80
    ensures Utf8Length(host) > |host|
  {
    if j < |host| - 1 {
      NonAsciiIsWider(host[..|host| - 1], j);
    }
  }

  /** With a host name holding a non-ASCII character, the expression as built from len(hostName)
      expects more characters before the slash than the host name has: no key of that host yields
      a short id. */
  lemma NonAsciiHostNeverMatches(host: string, id: string, j: nat)
    requires j < |host| && host[j] as int >= 0x80
    requires forall i :: 0 <= i < |id| ==> IsIdChar(id[i])
    ensures ShortId(host + "/" + id, Utf8Length(host)) == None
  {
    NonAsciiIsWider(host, j);
    var key := host + "/" + id;
    var w := Utf8Length(host);
    if |key| >= w + 14 {
      var m := w - |host| - 1;
      assert 0 <= m < |id|;
      assert key[w] == id[m];
      assert IsIdChar(id[m]);
    }
  }

  /** `short` is the short-id table built from the watch data `full`: its keys are exactly the short
      ids of `full`'s matching keys, and each entry is the info of a key with that short id. */
  ghost predicate ShortIdTable(short: map<string, ContainerInfo>, full: map<string, ContainerInfo>, width: nat) {
    && (forall key :: key in full && ShortId(key, width).Some? ==> ShortId(key, width).value in short)
    && (forall id :: id in short ==> exists key :: key in full && ShortId(key, width) == Some(id) && full[key] == short[id])
  }

  /** The short-id loop of updateContainerInfo; map iteration order is not fixed, so among keys
      sharing a short id any one may win. */
  method ShortIdData(full: map<string, ContainerInfo>, width: nat) returns (short: map<string, ContainerInfo>)
    ensures ShortIdTable(short, full, width)
  {
    short := map[];
    var rest := full.Keys;
    while rest != {}
      invariant rest <= full.Keys
      invariant forall key :: key in full && key !in rest && ShortId(key, width).Some? ==> ShortId(key, width).value in short
      invariant forall id :: id in short ==> exists key :: key in full && ShortId(key, width) == Some(id) && full[key] == short[id]
      decreases rest
    {
      var key :| key in rest;
      var matches := ShortId(key, width);
      if matches.Some? {
        short := short[matches.value := full[key]];
      }
      rest := rest - {key};
    }
  }

  /** One message of the lainlet watch: its kind and its decoded container table (None when the
      payload does not decode). */
  datatype WatchEvent = WatchEvent(event: string, data: Option<map<string, ContainerInfo>>)

  class TagLainFields {
    const lainletAddress: string
    const hostName: string
    const holder: DataHolder

    constructor (lainletAddress: string, hostName: string)
      ensures this.lainletAddress == lainletAddress && this.hostName == hostName
      ensures fresh(holder) && holder.data == map[]
    {
      this.lainletAddress := lainletAddress;
      this.hostName := hostName;
      holder := new DataHolder();
    }

    /** tagLainFields.Run, in place. An event without a string container_id fails the type
        assertion (a panic in the code) and is left as it was. */
    method Run(event: MapStr) returns (panicked: bool)
      modifies event
      ensures panicked <==> !("container_id" in old(event.data) && old(event.data)["container_id"].Str?)
      ensures panicked ==> event.data == old(event.data)
      ensures !panicked ==> event.data == Tagged(old(event.data), holder.data)
    {
      if !event.HasKey("container_id") || !event.data["container_id"].Str? {
        return true;
      }
      var containerId := event.data["container_id"].s;
      if containerId in holder.data && containerId != "" {
        var containerInfo := holder.data[containerId];
        event.Put("app_name", Str(containerInfo.appName));
        event.Put("proc_name", Str(containerInfo.procName));
        event.Put("instance_no", Int(containerInfo.instanceNo));
        event.Delete("container_id");
      } else {
        event.Put("app_name", Str("public"));
        event.Put("proc_name", Str("public"));
      }
      return false;
    }

    /** One step of the watch loop: only init, update and delete messages that decode are used;
        the short-id table is compared with the current table, and only when they differ is the
        current table replaced, by the full-key table of the message. */
    method ApplyWatchEvent(ev: WatchEvent) returns (shortIds: Option<map<string, ContainerInfo>>)
      modifies holder
      ensures !(ev.event in {"init", "update", "delete"} && ev.data.Some?) ==>
        shortIds == None && holder.data == old(holder.data)
      ensures ev.event in {"init", "update", "delete"} && ev.data.Some? ==>
        && shortIds.Some?
        && ShortIdTable(shortIds.value, ev.data.value, Utf8Length(hostName))
        && holder.data == (if shortIds.value == old(holder.data) then old(holder.data) else ev.data.value)
    {
      shortIds := None;
      if ev.event == "init" || ev.event == "update" || ev.event == "delete" {
        if ev.data.Some? {
          var short := ShortIdData(ev.data.value, Utf8Length(hostName));
          shortIds := Some(short);
          if short != holder.data {
            holder.data := ev.data.value;
          }
        }
      }
    }
  }
}
