/**
 * `main`: classify every URL entry, then every SSH host, and hand each
 * result to `sendMessage`, in list order, threading the status directory
 * through the calls.
 */
module Orchestrator {
  import opened Wrappers
  import opened Configuration
  import opened Probe
  import opened StateStore

  /** What the network does during one run: one `requests.get` outcome per
      URL entry and one connection outcome per SSH host, in list order. */
  datatype Network = Network(api: seq<HttpOutcome>, ssh: seq<SshOutcome>)

  /** The network answers every probe of `cfg`. */
  predicate Answers(cfg: Config, net: Network)
  {
    (cfg.urls.Some? ==> |net.api| == |cfg.urls.value|) &&
    (cfg.hosts.Some? ==> |net.ssh| == |cfg.hosts.value|)
  }

  /** The `sendMessage` calls of one run, in the order `main` makes them. */
  function Observations(s: Settings, cfg: Config, net: Network): (obs: seq<Observation>)
    requires cfg.Listed() && Answers(cfg, net)
    // one call per URL entry and per host, nothing else
    ensures |obs| == |cfg.urls.value| + |cfg.hosts.value|
    // every URL entry comes first, in list order, keyed by its name
    ensures forall i :: 0 <= i < |cfg.urls.value| ==>
      obs[i] == Observation(cfg.urls.value[i].name,
                            CheckApi(net.api[i], cfg.urls.value[i].checkJson, cfg.urls.value[i].checkText, s.defaultTimeoutMs))
    // then every SSH host, in list order, keyed by the host, with the default timeout
    ensures forall j :: 0 <= j < |cfg.hosts.value| ==>
      obs[|cfg.urls.value| + j] == Observation(cfg.hosts.value[j], CheckSsh(net.ssh[j], s.defaultTimeoutMs))
  {
    UrlObservations(s, cfg.urls.value, net.api) + HostObservations(s, cfg.hosts.value, net.ssh)
  }

  function UrlObservations(s: Settings, urls: seq<UrlEntry>, api: seq<HttpOutcome>): (obs: seq<Observation>)
    requires |api| == |urls|
    ensures |obs| == |urls|
    ensures forall i :: 0 <= i < |urls| ==>
      obs[i] == Observation(urls[i].name, CheckApi(api[i], urls[i].checkJson, urls[i].checkText, s.defaultTimeoutMs))
  {
    seq(|urls|, i requires 0 <= i < |urls| =>
      Observation(urls[i].name, CheckApi(api[i], urls[i].checkJson, urls[i].checkText, s.defaultTimeoutMs)))
  }

  function HostObservations(s: Settings, hosts: seq<string>, ssh: seq<SshOutcome>): (obs: seq<Observation>)
    requires |ssh| == |hosts|
    ensures |obs| == |hosts|
    ensures forall j :: 0 <= j < |hosts| ==> obs[j] == Observation(hosts[j], CheckSsh(ssh[j], s.defaultTimeoutMs))
  {
    seq(|hosts|, j requires 0 <= j < |hosts| => Observation(hosts[j], CheckSsh(ssh[j], s.defaultTimeoutMs)))
  }

  /** `main()` on a configuration that loaded as a dictionary (`Some`) or did
      not (`None`); the result is the process exit code. A null `urls` or
      `hosts-ssh` value makes its `for` loop raise `TypeError`, which ends
      the process with exit code 1. */
  method Run(m: Monitor, config: Option<Config>, net: Network) returns (exitCode: int)
    requires config.Some? ==> Answers(config.value, net)
    modifies m
    // no dictionary, or a null `urls`: exit 1 before anything is probed or written
    ensures (config.None? || config.value.urls.None?) ==>
      exitCode == 1 && m.files == old(m.files) && m.sent == old(m.sent)
    // a null `hosts-ssh`: exit 1 after the URL loop has run to the end
    ensures config.Some? && config.value.urls.Some? && config.value.hosts.None? ==>
      exitCode == 1 &&
      Store(m.files, m.sent) == Replay(m.settings, Store(old(m.files), old(m.sent)),
                                       UrlObservations(m.settings, config.value.urls.value, net.api))
    // otherwise: exit 0 after exactly the calls of Observations, in order
    ensures config.Some? && config.value.Listed() ==>
      exitCode == 0 &&
      Store(m.files, m.sent) == Replay(m.settings, Store(old(m.files), old(m.sent)), Observations(m.settings, config.value, net))
  {
    if config.None? || config.value.urls.None? {
      return 1;
    }
    var cfg := config.value;
    ghost var start := Store(m.files, m.sent);
    PollUrls(m, cfg.urls.value, net.api);
    if cfg.hosts.None? {
      return 1;
    }
    PollHosts(m, cfg.hosts.value, net.ssh);
    ReplayConcat(m.settings, start, UrlObservations(m.settings, cfg.urls.value, net.api),
                 HostObservations(m.settings, cfg.hosts.value, net.ssh));
    return 0;
  }

  /** The loop `for entry in urls`: `check_api` then `sendMessage` for each entry. */
  method PollUrls(m: Monitor, urls: seq<UrlEntry>, api: seq<HttpOutcome>)
    requires |api| == |urls|
    modifies m
    ensures Store(m.files, m.sent) == Replay(m.settings, Store(old(m.files), old(m.sent)), UrlObservations(m.settings, urls, api))
  {
    ghost var start := Store(m.files, m.sent);
    ghost var obs := UrlObservations(m.settings, urls, api);
    var i := 0;
    while i < |urls|
      invariant 0 <= i <= |urls|
      invariant Store(m.files, m.sent) == Replay(m.settings, start, obs[..i])
    {
      var entry := urls[i];
      var result := CheckApi(api[i], entry.checkJson, entry.checkText, m.settings.defaultTimeoutMs);
      var _ := m.SendMessage(entry.name, entry.url, result.code, result.message);
      assert obs[i] == Observation(entry.name, result);
      ReplayPrefix(m.settings, start, obs, i);
      i := i + 1;
    }
    assert obs[..i] == obs;
  }

  /** The loop `for host in hosts`: `check_ssh(host)` then `sendMessage(host, host, ...)`. */
  method PollHosts(m: Monitor, hosts: seq<string>, ssh: seq<SshOutcome>)
    requires |ssh| == |hosts|
    modifies m
    ensures Store(m.files, m.sent) == Replay(m.settings, Store(old(m.files), old(m.sent)), HostObservations(m.settings, hosts, ssh))
  {
    ghost var start := Store(m.files, m.sent);
    ghost var obs := HostObservations(m.settings, hosts, ssh);
    var j := 0;
    while j < |hosts|
      invariant 0 <= j <= |hosts|
      invariant Store(m.files, m.sent) == Replay(m.settings, start, obs[..j])
    {
      var host := hosts[j];
      var result := CheckSsh(ssh[j], m.settings.defaultTimeoutMs);
      var _ := m.SendMessage(host, host, result.code, result.message);
      assert obs[j] == Observation(host, result);
      ReplayPrefix(m.settings, start, obs, j);
      j := j + 1;
    }
    assert obs[..j] == obs;
  }

  /** Running `main` twice against a network that answers the same way, with
      no two targets sharing a status file, sends nothing the second time
      and leaves every file as the first run wrote it. */
  lemma SecondRunIsQuiet(s: Settings, st: Store, cfg: Config, net: Network)
    requires cfg.Listed() && Answers(cfg, net)
    requires var obs := Observations(s, cfg, net);
      forall i, j :: 0 <= i < j < |obs| ==> StateFileName(obs[i].name) != StateFileName(obs[j].name)
    ensures var obs := Observations(s, cfg, net);
      Replay(s, Replay(s, st, obs), obs) == Replay(s, st, obs)
  {
    var obs := Observations(s, cfg, net);
    assert ConsistentCodes(obs) by {
      forall i, j | 0 <= i < |obs| && 0 <= j < |obs| && StateFileName(obs[i].name) == StateFileName(obs[j].name)
        ensures obs[i].result.code == obs[j].result.code
      {
        assert !(i < j) && !(j < i);
      }
    }
    RerunIsQuiet(s, st, obs);
  }

  /** Only the code is persisted, so a URL target that was OK and now fails
      its JSON or "500" content check (still code 200) is not a change and
      sends nothing. */
  lemma ContentFailureIsSilent(s: Settings, st: Store, entry: UrlEntry, text: string, json: JsonOutcome)
    requires !ContentAccepted(text, json, entry.checkJson, entry.checkText)
    requires !(entry.checkJson && json.JsonOtherError?)
    ensures var ok := Step(s, st, Observation(entry.name, ApiOk));
      var bad := CheckApi(HttpResponse(200, text, json), entry.checkJson, entry.checkText, s.defaultTimeoutMs);
      bad != ApiOk && Step(s, ok, Observation(entry.name, bad)).sent == ok.sent
  {
    RepeatIsQuiet(st.files, entry.name, entry.name, 200, 200);
  }
}
