/** The management-API URLs the watchdog requests (main.go:80, 87, 115),
    and readers that take each URL string apart again, which shows that
    the concatenated string loses nothing even though connector names are
    not escaped. How the HTTP client then parses that string is not part
    of this model. */
module Endpoints {
  import opened Wrappers
  import opened Status
  import opened Decimal
  import opened Strings

  /** `getConnectorsList`, main.go:115. */
  function ConnectorsUrl(base: string): (r: string)
    ensures HasPrefix(r, base) && HasSuffix(r, "/connectors")
    ensures |r| == |base| + |"/connectors"|
  {
    base + "/connectors"
  }

  /** `getToRestartKCTasks`, main.go:87. */
  function StatusUrl(base: string, connector: string): (r: string)
    ensures HasPrefix(r, ConnectorsUrl(base) + "/")
    ensures HasSuffix(r, connector + "/status")
    ensures |r| == |ConnectorsUrl(base) + "/"| + |connector + "/status"|
  {
    var r := base + "/connectors/" + connector + "/status";
    assert r == ConnectorsUrl(base) + "/" + (connector + "/status");
    r
  }

  /** `restartKCTask`, main.go:80; the id is written by `strconv.Itoa`. */
  function RestartUrl(base: string, task: KCTask): (r: string)
    ensures HasPrefix(r, ConnectorsUrl(base) + "/" + task.connector + "/tasks/")
    ensures HasSuffix(r, Itoa(task.taskId as int) + "/restart")
    ensures |r| == |ConnectorsUrl(base) + "/" + task.connector + "/tasks/"| + |Itoa(task.taskId as int) + "/restart"|
  {
    var r := base + "/connectors/" + task.connector + "/tasks/" + Itoa(task.taskId as int) + "/restart";
    assert r == (ConnectorsUrl(base) + "/" + task.connector + "/tasks/") + (Itoa(task.taskId as int) + "/restart");
    r
  }

  /** What follows `base` and precedes the connector name in the status
      and restart URLs. */
  const ConnectorsPath: string := "/connectors/"

  /** `url` with `prefix` and `suffix` cut off, if it has both without
      overlap. */
  function Between(url: string, prefix: string, suffix: string): (r: Option<string>)
    ensures r.Some? <==> |prefix| + |suffix| <= |url| && HasPrefix(url, prefix) && HasSuffix(url, suffix)
    ensures r.Some? ==> url == prefix + r.value + suffix
  {
    if |prefix| + |suffix| <= |url| && url[..|prefix|] == prefix && url[|url| - |suffix|..] == suffix then
      var middle := url[|prefix|..|url| - |suffix|];
      assert url == url[..|prefix|] + middle + url[|url| - |suffix|..];
      Some(middle)
    else
      None
  }

  /** The position of the last `c` in `s`, if any. */
  function LastIndexOf(s: string, c: char): (r: Option<nat>)
    ensures r.Some? ==> r.value < |s| && s[r.value] == c && forall k :: r.value < k < |s| ==> s[k] != c
    ensures r.None? ==> c !in s
    decreases |s|
  {
    if |s| == 0 then None
    else if s[|s| - 1] == c then Some(|s| - 1)
    else LastIndexOf(s[..|s| - 1], c)
  }

  /** The connector named by a status URL under `base`. */
  function ParseStatusUrl(base: string, url: string): Option<string> {
    Between(url, base + ConnectorsPath, "/status")
  }

  /** The task named by the path `connector + "/tasks/" + id`: the id is
      the numeral after the last '/', and the connector is what precedes
      the "/tasks/" in front of it. */
  function ParseTaskPath(path: string): Option<KCTask> {
    match LastIndexOf(path, '/')
    case None => None
    case Some(j) =>
      var head := path[..j + 1];
      match ParseDecimal(path[j + 1..])
      case None => None
      case Some(id) =>
        if HasSuffix(head, "/tasks/") && InInt64(id) then
          Some(KCTask(head[..|head| - |"/tasks/"|], id as Int64))
        else
          None
  }

  /** The task named by a restart URL under `base`. */
  function ParseRestartUrl(base: string, url: string): Option<KCTask> {
    match Between(url, base + ConnectorsPath, "/restart")
    case None => None
    case Some(path) => ParseTaskPath(path)
  }

  /** Cutting a prefix and a suffix off their concatenation with `middle`
      gives back `middle`. */
  lemma BetweenOfConcat(prefix: string, middle: string, suffix: string)
    ensures Between(prefix + middle + suffix, prefix, suffix) == Some(middle)
  {
    var url := prefix + middle + suffix;
    var m := Between(url, prefix, suffix);
    assert m.Some?;
    assert |m.value| == |middle|;
    assert m.value == url[|prefix|..|url| - |suffix|] == middle;
  }

  /** The last '/' of `head + tail` is the one ending `head` when `tail`
      holds none. */
  lemma LastSlashEndsHead(head: string, tail: string)
    requires |head| > 0 && head[|head| - 1] == '/'
    requires '/' !in tail
    ensures LastIndexOf(head + tail, '/') == Some(|head| - 1)
  {
    var s := head + tail;
    assert s[|head| - 1] == '/';
  }

  /** The task can be read back from its path. */
  lemma TaskPathRoundTrip(task: KCTask)
    ensures ParseTaskPath(task.connector + "/tasks/" + Itoa(task.taskId as int)) == Some(task)
  {
    var head := task.connector + "/tasks/";
    var digits := Itoa(task.taskId as int);
    var path := head + digits;
    LastSlashEndsHead(head, digits);
    var j := |head| - 1;
    assert path[..j + 1] == head;
    assert path[j + 1..] == digits;
    ItoaRoundTrip(task.taskId as int);
    assert head[..|head| - 7] == task.connector;
  }

  /** The connector can be read back from its status URL. */
  lemma StatusUrlRoundTrip(base: string, connector: string)
    ensures ParseStatusUrl(base, StatusUrl(base, connector)) == Some(connector)
  {
    assert StatusUrl(base, connector) == (base + ConnectorsPath) + connector + "/status";
    BetweenOfConcat(base + ConnectorsPath, connector, "/status");
  }

  /** The task can be read back from its restart URL string, whatever
      characters the connector name holds. */
  lemma RestartUrlRoundTrip(base: string, task: KCTask)
    ensures ParseRestartUrl(base, RestartUrl(base, task)) == Some(task)
  {
    var path := task.connector + "/tasks/" + Itoa(task.taskId as int);
    assert RestartUrl(base, task) == (base + ConnectorsPath) + path + "/restart";
    BetweenOfConcat(base + ConnectorsPath, path, "/restart");
    TaskPathRoundTrip(task);
  }

  /** Different tasks get different restart URLs, and different connectors
      different status URLs; a status URL is never a restart URL. */
  lemma UrlsDistinguish(base: string, c1: string, c2: string, t1: KCTask, t2: KCTask)
    ensures StatusUrl(base, c1) == StatusUrl(base, c2) <==> c1 == c2
    ensures RestartUrl(base, t1) == RestartUrl(base, t2) <==> t1 == t2
    ensures StatusUrl(base, c1) != RestartUrl(base, t1)
  {
    StatusUrlRoundTrip(base, c1);
    StatusUrlRoundTrip(base, c2);
    RestartUrlRoundTrip(base, t1);
    RestartUrlRoundTrip(base, t2);
    var s := StatusUrl(base, c1);
    var r := RestartUrl(base, t1);
    assert s[|s| - 1] == 's';
    assert r[|r| - 1] == 't';
  }
}
