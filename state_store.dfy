/**
 * The persisted status of every target and the edge-triggered notification
 * of `sendMessage`. The status directory is a map from file name to file
 * content; the Pushover messages that would be posted are recorded in order.
 *
 * The specification functions `Step` and `Replay` describe one call and a
 * sequence of calls on a `Store` value; the class `Monitor` holds the same
 * state in fields and its method `SendMessage` is proved to perform `Step`.
 */
module StateStore {
  import opened Wrappers
  import opened Text
  import opened Configuration
  import opened Probe

  /** One Pushover message: its title and its text. */
  datatype Notification = Notification(title: string, body: string)

  /** The status directory (file name to content) and the messages sent so far. */
  datatype Store = Store(files: map<string, string>, sent: seq<Notification>)

  /** One call `sendMessage(name, url, code, message)`. */
  datatype Observation = Observation(name: string, result: CheckResult)

  /** How one character of a target name appears in its file name. */
  function SanitizedChar(c: char): char
  {
    if c == ':' || c == '/' then '_' else c
  }

  /** `name.replace(':', '_').replace('/', '_') + ".txt"`, the target's file in the status directory. */
  function StateFileName(name: string): (f: string)
    ensures |f| == |name| + 4 && f[|name|..] == ".txt"
    ensures forall i :: 0 <= i < |name| ==> f[i] == SanitizedChar(name[i])
    // the file name has no ':' and no '/', so it always lies directly in the status directory
    ensures forall i :: 0 <= i < |name| ==> f[i] != ':' && f[i] != '/'
  {
    ReplaceChar(ReplaceChar(name, ':', '_'), '/', '_') + ".txt"
  }

  /** Two targets share a status file exactly when their names have the same
      length and agree at every position up to ':', '/' and '_'. */
  lemma SameStateFile(a: string, b: string)
    ensures StateFileName(a) == StateFileName(b) <==>
      |a| == |b| && forall i :: 0 <= i < |a| ==> SanitizedChar(a[i]) == SanitizedChar(b[i])
  {
  }

  /** Names that differ only in ':' against '/' (or '_') collide on one file. */
  lemma ColonSlashCollide()
    ensures StateFileName("a:b") == StateFileName("a/b") == StateFileName("a_b") == "a_b.txt"
    ensures StateFileName("host:8080/api") == "host_8080_api.txt"
  {
    StateFileNameIs("a:b", "a_b.txt");
    StateFileNameIs("a/b", "a_b.txt");
    StateFileNameIs("a_b", "a_b.txt");
    StateFileNameIs("host:8080/api", "host_8080_api.txt");
  }

  /** A file name is determined by its length, its characters and its suffix. */
  lemma StateFileNameIs(name: string, f: string)
    requires |f| == |name| + 4 && f[|name|..] == ".txt"
    requires forall i :: 0 <= i < |name| ==> f[i] == SanitizedChar(name[i])
    ensures StateFileName(name) == f
  {
  }

  /** `prev_code`: the stripped content of the target's file, or none when there is no file. */
  function Previous(files: map<string, string>, name: string): Option<string>
  {
    var f := StateFileName(name);
    if f in files then Some(Strip(files[f])) else None
  }

  /** `prev_code != str(code)`: no file yet, or a file whose text differs. */
  predicate Changed(files: map<string, string>, name: string, code: int)
  {
    Previous(files, name) != Some(IntToString(code))
  }

  /** The message posted for a change: title `"<name> error"`, text `"<code> <message> (<CLIENT_NAME>)"`. */
  function Alert(s: Settings, name: string, code: int, message: string): Notification
  {
    Notification(name + " error", IntToString(code) + " " + message + " (" + s.clientName + ")")
  }

  /** The effect of one `sendMessage` on the store. */
  function Step(s: Settings, st: Store, o: Observation): (r: Store)
    // the target's file now holds str(code), created if it was missing ...
    ensures r.files.Keys == st.files.Keys + {StateFileName(o.name)}
    ensures r.files[StateFileName(o.name)] == IntToString(o.result.code)
    // ... and no other file changes
    ensures forall f :: f in st.files && f != StateFileName(o.name) ==> r.files[f] == st.files[f]
    // at most one message is appended, exactly when the status changed and Pushover is configured
    ensures st.sent <= r.sent
    ensures |r.sent| == |st.sent| + (if Changed(st.files, o.name, o.result.code) && s.PushoverEnabled() then 1 else 0)
    ensures |r.sent| > |st.sent| ==> r.sent[|st.sent|] == Alert(s, o.name, o.result.code, o.result.message)
  {
    var changed := Changed(st.files, o.name, o.result.code);
    Store(st.files[StateFileName(o.name) := IntToString(o.result.code)],
          if changed && s.PushoverEnabled() then st.sent + [Alert(s, o.name, o.result.code, o.result.message)]
          else st.sent)
  }

  /** Writing a code and then observing a target with the same file: a change
      is reported exactly when the new code differs. In particular an
      immediate repeat of the same code is quiet. */
  lemma RepeatIsQuiet(files: map<string, string>, a: string, b: string, c1: int, c2: int)
    requires StateFileName(a) == StateFileName(b)
    ensures Changed(files[StateFileName(a) := IntToString(c1)], b, c2) <==> c1 != c2
  {
    StripIntToString(c1);
    IntToStringInjective(c1, c2);
  }

  /** The store after a sequence of `sendMessage` calls, in order. */
  function Replay(s: Settings, st: Store, obs: seq<Observation>): Store
    decreases |obs|
  {
    if obs == [] then st else Replay(s, Step(s, st, obs[0]), obs[1..])
  }

  /** One more call after a sequence is one more `Step`. */
  lemma {:induction false} ReplayAppend(s: Settings, st: Store, obs: seq<Observation>, o: Observation)
    ensures Replay(s, st, obs + [o]) == Step(s, Replay(s, st, obs), o)
    decreases |obs|
  {
    if obs == [] {
      assert [] + [o] == [o];
    } else {
      assert (obs + [o])[1..] == obs[1..] + [o];
      ReplayAppend(s, Step(s, st, obs[0]), obs[1..], o);
    }
  }

  /** Replaying one more call of `obs` is one more `Step`. */
  lemma ReplayPrefix(s: Settings, st: Store, obs: seq<Observation>, k: nat)
    requires k < |obs|
    ensures Replay(s, st, obs[..k + 1]) == Step(s, Replay(s, st, obs[..k]), obs[k])
  {
    assert obs[..k + 1] == obs[..k] + [obs[k]];
    ReplayAppend(s, st, obs[..k], obs[k]);
  }

  /** Two sequences of calls one after the other. */
  lemma {:induction false} ReplayConcat(s: Settings, st: Store, a: seq<Observation>, b: seq<Observation>)
    ensures Replay(s, st, a + b) == Replay(s, Replay(s, st, a), b)
    decreases |a|
  {
    if a == [] {
      assert [] + b == b;
    } else {
      assert (a + b)[1..] == a[1..] + b;
      ReplayConcat(s, Step(s, st, a[0]), a[1..], b);
    }
  }

  /** A file that none of the calls names keeps its content. */
  lemma {:induction false} ReplayKeeps(s: Settings, st: Store, obs: seq<Observation>, f: string)
    requires forall i :: 0 <= i < |obs| ==> StateFileName(obs[i].name) != f
    ensures f in Replay(s, st, obs).files <==> f in st.files
    ensures f in st.files ==> Replay(s, st, obs).files[f] == st.files[f]
    decreases |obs|
  {
    if obs != [] {
      ReplayKeeps(s, Step(s, st, obs[0]), obs[1..], f);
    }
  }

  /** Without both Pushover credentials no call sends anything, whatever the
      observations; the files are updated as usual. */
  lemma {:induction false} SilentWithoutPushover(s: Settings, st: Store, obs: seq<Observation>)
    requires !s.PushoverEnabled()
    ensures Replay(s, st, obs).sent == st.sent
    decreases |obs|
  {
    if obs != [] {
      SilentWithoutPushover(s, Step(s, st, obs[0]), obs[1..]);
    }
  }

  /** The settings used when the configuration is not a dictionary have empty
      credentials, so such a run never notifies. */
  lemma DefaultsAreSilent(st: Store, obs: seq<Observation>)
    ensures Replay(Defaults, st, obs).sent == st.sent
  {
    SilentWithoutPushover(Defaults, st, obs);
  }

  /** Targets that share a file were observed with the same code. */
  ghost predicate ConsistentCodes(obs: seq<Observation>)
  {
    forall i, j :: 0 <= i < |obs| && 0 <= j < |obs| && StateFileName(obs[i].name) == StateFileName(obs[j].name)
      ==> obs[i].result.code == obs[j].result.code
  }

  /** Every target's file holds that target's code. */
  ghost predicate Recorded(files: map<string, string>, obs: seq<Observation>)
  {
    forall i :: 0 <= i < |obs| ==>
      StateFileName(obs[i].name) in files && files[StateFileName(obs[i].name)] == IntToString(obs[i].result.code)
  }

  /** After a sequence of calls in which targets sharing a file agree on the
      code, every target's file holds its code. */
  lemma {:induction false} ReplayRecords(s: Settings, st: Store, obs: seq<Observation>)
    requires ConsistentCodes(obs)
    ensures Recorded(Replay(s, st, obs).files, obs)
    decreases |obs|
  {
    if obs != [] {
      var st1, rest := Step(s, st, obs[0]), obs[1..];
      assert ConsistentCodes(rest) by {
        forall i, j | 0 <= i < |rest| && 0 <= j < |rest| && StateFileName(rest[i].name) == StateFileName(rest[j].name)
          ensures rest[i].result.code == rest[j].result.code
        {
          assert rest[i] == obs[i + 1] && rest[j] == obs[j + 1];
        }
      }
      ReplayRecords(s, st1, rest);
      var files := Replay(s, st, obs).files;
      var f := StateFileName(obs[0].name);
      if j :| 0 <= j < |rest| && StateFileName(rest[j].name) == f {
        assert rest[j] == obs[j + 1];
      } else {
        ReplayKeeps(s, st1, rest, f);
      }
      forall i | 0 <= i < |obs|
        ensures StateFileName(obs[i].name) in files && files[StateFileName(obs[i].name)] == IntToString(obs[i].result.code)
      {
        if i > 0 {
          assert obs[i] == rest[i - 1];
        }
      }
    }
  }

  /** When every target's file already holds its code, the calls change
      nothing and send nothing. */
  lemma {:induction false} ReplayQuiet(s: Settings, st: Store, obs: seq<Observation>)
    requires Recorded(st.files, obs)
    ensures Replay(s, st, obs) == st
    decreases |obs|
  {
    if obs != [] {
      var o := obs[0];
      var f := StateFileName(o.name);
      StripIntToString(o.result.code);
      assert !Changed(st.files, o.name, o.result.code);
      assert st.files[f := IntToString(o.result.code)] == st.files;
      assert Step(s, st, o) == st;
      assert Recorded(st.files, obs[1..]) by {
        forall i | 0 <= i < |obs[1..]|
          ensures StateFileName(obs[1..][i].name) in st.files
          ensures st.files[StateFileName(obs[1..][i].name)] == IntToString(obs[1..][i].result.code)
        {
          assert obs[1..][i] == obs[i + 1];
        }
      }
      ReplayQuiet(s, st, obs[1..]);
    }
  }

  /** Edge triggering: running the same observations a second time changes no
      file and sends no message, provided targets that share a file agree. */
  lemma RerunIsQuiet(s: Settings, st: Store, obs: seq<Observation>)
    requires ConsistentCodes(obs)
    ensures Replay(s, Replay(s, st, obs), obs) == Replay(s, st, obs)
  {
    ReplayRecords(s, st, obs);
    ReplayQuiet(s, Replay(s, st, obs), obs);
  }

  /** Two targets whose names collide on one file but whose codes differ
      overwrite each other's status, so every run reports both as changed. */
  lemma CollidingTargetsAlertEveryRun(s: Settings, st: Store, a: string, b: string, ra: CheckResult, rb: CheckResult)
    requires StateFileName(a) == StateFileName(b) && ra.code != rb.code && s.PushoverEnabled()
    ensures var obs := [Observation(a, ra), Observation(b, rb)];
            var st1 := Replay(s, st, obs);
            Replay(s, st1, obs).sent == st1.sent + [Alert(s, a, ra.code, ra.message), Alert(s, b, rb.code, rb.message)]
  {
    var obs := [Observation(a, ra), Observation(b, rb)];
    var f := StateFileName(a);
    ReplayPair(s, st, obs[0], obs[1]);
    var st1 := Replay(s, st, obs);
    ReplayPair(s, st1, obs[0], obs[1]);
    // after the first run the shared file holds b's code, after a's call in the second a's
    assert st1.files[f] == IntToString(rb.code);
    var mid := Step(s, st1, obs[0]);
    assert mid.files[f] == IntToString(ra.code);
    StripIntToString(ra.code);
    StripIntToString(rb.code);
    IntToStringInjective(ra.code, rb.code);
    assert Changed(st1.files, a, ra.code);
    assert Changed(mid.files, b, rb.code);
  }

  /** Two calls in a row. */
  lemma ReplayPair(s: Settings, st: Store, o1: Observation, o2: Observation)
    ensures Replay(s, st, [o1, o2]) == Step(s, Step(s, st, o1), o2)
  {
    var st1 := Step(s, st, o1);
    assert [o1, o2][1..] == [o2];
    assert Replay(s, st, [o1, o2]) == Replay(s, st1, [o2]);
    assert [o2][1..] == [];
    assert Replay(s, st1, [o2]) == Replay(s, Step(s, st1, o2), []);
  }

  /** The status of one target across three runs: first seen with 200 (a
      message), seen with 200 again (quiet), then seen with 500 (a message). */
  lemma EdgeTriggeredRuns(s: Settings, st: Store, name: string, m1: string, m2: string, m3: string)
    requires StateFileName(name) !in st.files && s.PushoverEnabled()
    ensures var st1 := Step(s, st, Observation(name, CheckResult(200, m1)));
            var st2 := Step(s, st1, Observation(name, CheckResult(200, m2)));
            var st3 := Step(s, st2, Observation(name, CheckResult(500, m3)));
            st1.sent == st.sent + [Alert(s, name, 200, m1)] &&
            st2.sent == st1.sent &&
            st3.sent == st2.sent + [Alert(s, name, 500, m3)] &&
            st3.files[StateFileName(name)] == "500"
  {
    RepeatIsQuiet(st.files, name, name, 200, 200);
    RepeatIsQuiet(st.files[StateFileName(name) := IntToString(200)], name, name, 200, 500);
  }

  /** The state `sendMessage` works on: the files of `STATUS_DIR` and the
      Pushover messages posted so far, under fixed settings. */
  class Monitor {
    const settings: Settings
    var files: map<string, string>
    var sent: seq<Notification>

    /** A monitor over a status directory that already holds `files`. */
    constructor (settings: Settings, files: map<string, string>)
      ensures this.settings == settings && this.files == files && this.sent == []
    {
      this.settings := settings;
      this.files := files;
      this.sent := [];
    }

    /** `sendMessage(name, url, code, message)`: read the previous status,
        overwrite it with `str(code)`, and notify on a change. `url` is
        unused, as in the source; `changed` tells whether the
        "Status changed" line is printed. */
    method SendMessage(name: string, url: string, code: int, message: string) returns (changed: bool)
      modifies this
      ensures changed <==>
        StateFileName(name) !in old(files) || Strip(old(files)[StateFileName(name)]) != IntToString(code)
      ensures files == old(files)[StateFileName(name) := IntToString(code)]
      ensures sent == if changed && settings.PushoverEnabled()
                      then old(sent) + [Alert(settings, name, code, message)]
                      else old(sent)
      ensures Store(files, sent) == Step(settings, Store(old(files), old(sent)), Observation(name, CheckResult(code, message)))
    {
      var stateFile := StateFileName(name);
      var prevCode: Option<string> := None;
      if stateFile in files {
        prevCode := Some(Strip(files[stateFile]));
        files := files[stateFile := IntToString(code)];
      } else {
        files := files[stateFile := IntToString(code)];
      }
      assert prevCode == Previous(old(files), name);
      changed := prevCode != Some(IntToString(code));
      if changed && settings.PushoverEnabled() {
        sent := sent + [Alert(settings, name, code, message)];
      }
      assert changed == Changed(old(files), name, code);
    }
  }
}
