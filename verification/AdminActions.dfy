/** The admin server actions: saving the settings form and flipping a
    conversation between AI and Human mode. `updateSystemConfig` is not part
    of this model; its calls are recorded, in order, in a write log. */
module AdminActions {
  import opened Wrappers
  import opened NotionSessions

  /** Submitted form data: its entries in order, as (name, value) pairs. */
  type FormData = seq<(string, string)>

  /** `formData.get(name)`: the value of the first entry with that name,
      `None` (the source's `null`) when there is none. */
  function FormGet(form: FormData, name: string): (r: Option<string>)
    ensures r.None? <==> forall i :: 0 <= i < |form| ==> form[i].0 != name
    ensures r.Some? ==>
              exists i :: 0 <= i < |form| && form[i] == (name, r.value) &&
                          forall k :: 0 <= k < i ==> form[k].0 != name
  {
    if form == [] then None
    else if form[0].0 == name then Some(form[0].1)
    else
      var r := FormGet(form[1..], name);
      assert r.Some? ==> exists i :: 0 <= i < |form| && form[i] == (name, r.value) &&
                                     forall k :: 0 <= k < i ==> form[k].0 != name by {
        if r.Some? {
          var i :| 0 <= i < |form[1..]| && form[1..][i] == (name, r.value) &&
                   forall k :: 0 <= k < i ==> form[1..][k].0 != name;
          assert form[i + 1] == (name, r.value);
          assert forall k :: 1 <= k < i + 1 ==> form[k] == form[1..][k - 1];
        }
      }
      r
  }

  /** The switch is on exactly when the first `ai_enabled` entry is "on"
      (an unchecked checkbox sends no entry). */
  function AiEnabled(form: FormData): (enabled: bool)
    ensures enabled <==>
              exists i :: 0 <= i < |form| && form[i] == ("ai_enabled", "on") &&
                          forall k :: 0 <= k < i ==> form[k].0 != "ai_enabled"
  {
    var v := FormGet(form, "ai_enabled");
    assert (exists i :: 0 <= i < |form| && form[i] == ("ai_enabled", "on") &&
                        forall k :: 0 <= k < i ==> form[k].0 != "ai_enabled") ==> v == Some("on") by {
      if exists i :: 0 <= i < |form| && form[i] == ("ai_enabled", "on") &&
                     forall k :: 0 <= k < i ==> form[k].0 != "ai_enabled" {
        var i :| 0 <= i < |form| && form[i] == ("ai_enabled", "on") &&
                 forall k :: 0 <= k < i ==> form[k].0 != "ai_enabled";
        assert v.Some?;
        var j :| 0 <= j < |form| && form[j] == ("ai_enabled", v.value) &&
                 forall k :: 0 <= k < j ==> form[k].0 != "ai_enabled";
        assert i == j;
      }
    }
    v == Some("on")
  }

  /** A value written to a setting: the switch as a boolean, the other
      fields as submitted (`None` when missing from the form). */
  datatype SettingValue = BoolSetting(b: bool) | TextSetting(s: Option<string>)

  /** One call to `updateSystemConfig`: the setting's key and its value. */
  type SettingWrite = (string, SettingValue)

  /** The calls made to `updateSystemConfig`, in order. Each call either
      succeeds or throws; `writeError` gives the message it throws, `None`
      when it succeeds. */
  class ConfigWriteLog {
    const writeError: SettingWrite -> Option<string>
    var writes: seq<SettingWrite>

    constructor (writeError: SettingWrite -> Option<string>)
      ensures this.writeError == writeError && writes == []
    {
      this.writeError := writeError;
      writes := [];
    }

    /** One `updateSystemConfig` call: it is recorded, and it reports the
        error it throws, if any. */
    method UpdateSystemConfig(key: string, value: SettingValue) returns (err: Option<string>)
      modifies this
      ensures writes == old(writes) + [(key, value)]
      ensures err == writeError((key, value))
    {
      writes := writes + [(key, value)];
      err := writeError((key, value));
    }
  }

  /** The four writes of the settings form, in the order the action makes
      them. */
  function SettingWrites(form: FormData): seq<SettingWrite> {
    [("AI_ENABLED", BoolSetting(AiEnabled(form))),
     ("MODEL_NAME", TextSetting(FormGet(form, "model_name"))),
     ("SYSTEM_PROMPT", TextSetting(FormGet(form, "system_prompt"))),
     ("HANDOVER_KEYWORDS", TextSetting(FormGet(form, "handover_keywords")))]
  }

  /** The writes a sequence of awaited calls actually makes: each in turn,
      up to and including the first one that throws. */
  function Attempted(ws: seq<SettingWrite>, fails: SettingWrite -> Option<string>): seq<SettingWrite> {
    if ws == [] then []
    else if fails(ws[0]).Some? then [ws[0]]
    else [ws[0]] + Attempted(ws[1..], fails)
  }

  /** The error a sequence of awaited calls rejects with: the first one
      thrown, `None` when every call succeeds. */
  function FirstWriteError(ws: seq<SettingWrite>, fails: SettingWrite -> Option<string>): Option<string> {
    if ws == [] then None
    else if fails(ws[0]).Some? then fails(ws[0])
    else FirstWriteError(ws[1..], fails)
  }

  /** When every write succeeds, all of them are made, in order, and
      nothing is thrown. */
  lemma {:induction false} AllSucceed(ws: seq<SettingWrite>, fails: SettingWrite -> Option<string>)
    requires forall i :: 0 <= i < |ws| ==> fails(ws[i]).None?
    ensures Attempted(ws, fails) == ws
    ensures FirstWriteError(ws, fails).None?
  {
    if ws != [] {
      assert fails(ws[0]).None?;
      assert forall i :: 0 <= i < |ws| - 1 ==> ws[1..][i] == ws[i + 1];
      AllSucceed(ws[1..], fails);
    }
  }

  /** When the writes before index `k` succeed and write `k` throws, the
      writes made are those up to `k`, and the error is write `k`'s. */
  lemma {:induction false} StopsAt(ws: seq<SettingWrite>, fails: SettingWrite -> Option<string>, k: nat)
    requires k < |ws| && fails(ws[k]).Some?
    requires forall i :: 0 <= i < k ==> fails(ws[i]).None?
    ensures Attempted(ws, fails) == ws[..k + 1]
    ensures FirstWriteError(ws, fails) == fails(ws[k])
  {
    if k > 0 {
      assert fails(ws[0]).None?;
      StopsAt(ws[1..], fails, k - 1);
      assert ws[..k + 1] == [ws[0]] + ws[1..][..k];
    }
  }

  /** Every sequence of writes either runs to the end without an error or
      stops at the first write that throws, with that write's error. */
  lemma WritesStopAtFirstError(ws: seq<SettingWrite>, fails: SettingWrite -> Option<string>)
    ensures FirstWriteError(ws, fails).None? <==> forall i :: 0 <= i < |ws| ==> fails(ws[i]).None?
    ensures FirstWriteError(ws, fails).None? ==> Attempted(ws, fails) == ws
    ensures FirstWriteError(ws, fails).Some? ==>
              exists k :: 0 <= k < |ws| && Attempted(ws, fails) == ws[..k + 1] &&
                          FirstWriteError(ws, fails) == fails(ws[k]) &&
                          forall i :: 0 <= i < k ==> fails(ws[i]).None?
  {
    if forall i :: 0 <= i < |ws| ==> fails(ws[i]).None? {
      AllSucceed(ws, fails);
    } else {
      var k := FirstFailing(ws, fails);
      StopsAt(ws, fails, k);
    }
  }

  /** The index of the first write that throws, when there is one. */
  lemma {:induction false} FirstFailing(ws: seq<SettingWrite>, fails: SettingWrite -> Option<string>) returns (k: nat)
    requires exists i :: 0 <= i < |ws| && fails(ws[i]).Some?
    ensures k < |ws| && fails(ws[k]).Some?
    ensures forall i :: 0 <= i < k ==> fails(ws[i]).None?
  {
    if fails(ws[0]).Some? {
      k := 0;
    } else {
      var j :| 0 <= j < |ws| && fails(ws[j]).Some?;
      assert fails(ws[1..][j - 1]).Some?;
      var k' := FirstFailing(ws[1..], fails);
      k := k' + 1;
      assert forall i :: 1 <= i < k ==> ws[i] == ws[1..][i - 1];
    }
  }

  /** `updateConfigAction`: the four writes of `SettingWrites`, in the
      order AI_ENABLED, MODEL_NAME, SYSTEM_PROMPT, HANDOVER_KEYWORDS; the
      first write that throws stops the rest and the action rejects with its
      error (`None` when it resolves). */
  method UpdateConfigAction(log: ConfigWriteLog, form: FormData) returns (err: Option<string>)
    modifies log
    ensures log.writes == old(log.writes) + Attempted(SettingWrites(form), log.writeError)
    ensures err == FirstWriteError(SettingWrites(form), log.writeError)
  {
    var ws := SettingWrites(form);
    ghost var start := log.writes;
    err := log.UpdateSystemConfig(ws[0].0, ws[0].1);
    if err.Some? {
      StopsAt(ws, log.writeError, 0);
      return;
    }
    err := log.UpdateSystemConfig(ws[1].0, ws[1].1);
    assert log.writes == start + ws[..2];
    if err.Some? {
      StopsAt(ws, log.writeError, 1);
      return;
    }
    err := log.UpdateSystemConfig(ws[2].0, ws[2].1);
    assert log.writes == start + ws[..3];
    if err.Some? {
      StopsAt(ws, log.writeError, 2);
      return;
    }
    err := log.UpdateSystemConfig(ws[3].0, ws[3].1);
    assert log.writes == start + ws;
    if err.Some? {
      StopsAt(ws, log.writeError, 3);
    } else {
      AllSucceed(ws, log.writeError);
    }
  }

  /** The mode a toggle switches to: always the other one. */
  function NewMode(current: Mode): (next: Mode)
    ensures next != current
  {
    if current == AI then Human else AI
  }

  /** Toggling twice gives back the original mode. */
  lemma ToggleTwice(m: Mode)
    ensures NewMode(NewMode(m)) == m
  {
  }

  /** `toggleAiModeAction`: writes the other mode through the session
      upsert; with a configured database the user's row ends in that mode
      and every other user's row is as it was. */
  method ToggleAiModeAction(store: SessionStore, lineUserId: string, currentMode: Mode, now: string,
                            newPageId: string)
    modifies store
    ensures store.sessionDbId == "" ==> store.rows == old(store.rows)
    ensures store.sessionDbId != "" ==>
              store.rows == Upserted(old(store.rows), lineUserId, NewMode(currentMode), now, newPageId)
    ensures store.sessionDbId != "" ==>
              lineUserId in store.rows && store.rows[lineUserId].mode == Some(NewMode(currentMode))
    ensures forall u :: u != lineUserId ==>
              (u in store.rows <==> u in old(store.rows)) &&
              (u in store.rows ==> store.rows[u] == old(store.rows)[u])
  {
    store.UpdateChatSession(lineUserId, NewMode(currentMode), now, newPageId);
  }
}
