/**
 * The per-session `run_analysis` flag that decides, on each rerun of the
 * page, whether the analysis runs. A rerun is described by two inputs:
 * whether a file is uploaded, and whether the start button was pressed on
 * this rerun.
 */
module Session {
  import opened Options
  import opened Results

  /** One rerun of the page, as the flag logic sees it. */
  datatype Interaction = Interaction(uploaded: bool, pressed: bool)

  /**
   * The flag after one rerun. Without a file the key is removed; with a file
   * it is always present, true when the button was pressed now, and
   * otherwise initialised to false only when absent, so a true flag stays.
   */
  function Next(flag: Option<bool>, uploaded: bool, pressed: bool): (next: Option<bool>)
    ensures !uploaded ==> next == None
    ensures uploaded ==> next.Some?
    ensures uploaded ==> (next == Some(true) <==> pressed || flag == Some(true))
    ensures uploaded && !pressed && flag.Some? ==> next == flag
  {
    if uploaded then
      if pressed then Some(true)
      else if flag == None then Some(false)
      else flag
    else None
  }

  /**
   * Whether the analysis runs: only with a file uploaded, and only when the
   * flag is present and true (an absent or false flag keeps it shut).
   */
  predicate Runs(flag: Option<bool>, uploaded: bool)
    ensures Runs(flag, uploaded) ==> uploaded && flag == Some(true)
  {
    uploaded && flag.Some? && flag.value
  }

  /** Analysis runs on a rerun exactly when a file is uploaded and the button was pressed now or before. */
  lemma RunsAfterStep(flag: Option<bool>, uploaded: bool, pressed: bool)
    ensures Runs(Next(flag, uploaded, pressed), uploaded) <==> uploaded && (pressed || flag == Some(true))
  {
  }

  /** The flag after a whole history of reruns, starting from `start`. */
  function Replay(start: Option<bool>, history: seq<Interaction>): (flag: Option<bool>)
  {
    if history == [] then start
    else
      var last := history[|history| - 1];
      Next(Replay(start, history[..|history| - 1]), last.uploaded, last.pressed)
  }

  /** Once set, the flag stays true for as long as a file stays uploaded, pressed or not. */
  lemma {:induction false} TrueFlagPersists(start: Option<bool>, history: seq<Interaction>)
    requires start == Some(true)
    requires forall i :: 0 <= i < |history| ==> history[i].uploaded
    ensures Replay(start, history) == Some(true)
  {
    if history != [] {
      var prefix := history[..|history| - 1];
      assert forall i :: 0 <= i < |prefix| ==> prefix[i].uploaded by {
        forall i | 0 <= i < |prefix| ensures prefix[i].uploaded {
          assert prefix[i] == history[i];
        }
      }
      TrueFlagPersists(start, prefix);
    }
  }

  /** A rerun without a file clears the flag, whatever came before. */
  lemma NoFileClearsFlag(start: Option<bool>, history: seq<Interaction>)
    requires history != [] && !history[|history| - 1].uploaded
    ensures Replay(start, history) == None
  {
  }

  /** The button was pressed at `i` and a file has been uploaded on every rerun since. */
  ghost predicate PressedSinceUpload(history: seq<Interaction>, i: int)
  {
    0 <= i < |history| && history[i].pressed &&
    forall j :: i <= j < |history| ==> history[j].uploaded
  }

  /**
   * From a session whose flag is not yet true, the flag is true after a
   * history exactly when the button was pressed on some rerun and a file has
   * stayed uploaded from that rerun on.
   */
  lemma {:induction false} FlagTrueIff(start: Option<bool>, history: seq<Interaction>)
    requires start != Some(true)
    ensures Replay(start, history) == Some(true) <==> exists i :: PressedSinceUpload(history, i)
  {
    if history != [] {
      var n := |history|;
      var prefix := history[..n - 1];
      var last := history[n - 1];
      FlagTrueIff(start, prefix);
      if Replay(start, history) == Some(true) {
        if last.pressed {
          assert PressedSinceUpload(history, n - 1);
        } else {
          var i :| PressedSinceUpload(prefix, i);
          assert PressedSinceUpload(history, i);
        }
      }
      if exists i :: PressedSinceUpload(history, i) {
        var i :| PressedSinceUpload(history, i);
        if i < n - 1 {
          assert prefix[i] == history[i];
          assert forall j :: i <= j < |prefix| ==> prefix[j] == history[j];
          assert PressedSinceUpload(prefix, i);
        }
      }
    }
  }

  /** In a fresh session, analysis runs only after a press with the file uploaded ever since. */
  lemma RunsOnlyAfterPress(history: seq<Interaction>)
    requires history != [] && Runs(Replay(None, history), history[|history| - 1].uploaded)
    ensures exists i :: PressedSinceUpload(history, i)
  {
    FlagTrueIff(None, history);
  }

  /** The page's session store, reduced to its `run_analysis` entry. */
  class SessionState {
    var runAnalysis: Option<bool>

    /** A new session has no `run_analysis` entry. */
    constructor()
      ensures runAnalysis == None
    {
      runAnalysis := None;
    }

    /** Update the flag for one rerun: set on a press, initialise if absent, delete without a file. */
    method Step(uploaded: bool, pressed: bool)
      modifies this
      ensures runAnalysis == Next(old(runAnalysis), uploaded, pressed)
      ensures Runs(runAnalysis, uploaded) <==> uploaded && (pressed || old(runAnalysis) == Some(true))
    {
      if uploaded {
        if pressed {
          runAnalysis := Some(true);
        } else if runAnalysis.None? {
          runAnalysis := Some(false);
        }
      } else if runAnalysis.Some? {
        runAnalysis := None;
      }
    }

    /** The gate in front of the analysis: a file is uploaded and the flag reads true. */
    predicate ShouldRun(uploaded: bool)
      reads this
      ensures ShouldRun(uploaded) ==> uploaded && runAnalysis == Some(true)
      ensures runAnalysis == None ==> !ShouldRun(uploaded)
    {
      Runs(runAnalysis, uploaded)
    }

    /**
     * One rerun of the page: update the flag, decode the uploaded image, then,
     * when the gate opens, run the analysis on the inference outcome and
     * return what it shows. `decodes` says whether the upload is an image the
     * decoder accepts; a failed decode is not caught, so it ends the rerun
     * after the flag update and before the gate, with nothing analysed.
     */
    method Rerun(uploaded: bool, pressed: bool, decodes: bool, response: Response) returns (shown: Option<Display>)
      modifies this
      ensures runAnalysis == Next(old(runAnalysis), uploaded, pressed)
      ensures shown.Some? <==> uploaded && decodes && (pressed || old(runAnalysis) == Some(true))
      ensures shown.Some? ==> shown.value == Classify(response)
    {
      Step(uploaded, pressed);
      if uploaded && !decodes {
        shown := None;
      } else if ShouldRun(uploaded) {
        var display := Analyze(response);
        shown := Some(display);
      } else {
        shown := None;
      }
    }
  }
}
