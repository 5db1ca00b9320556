/**
 * The parameter panel of the web front end (web/ui/controls.js): the
 * validator that clamps every input into its range, and the three buttons.
 * "apply" and "defaults" are refused while a bob is dragged; "reset" is not.
 *
 * Reading the form fields and writing them back are DOM work; a panel
 * receives the numbers already read, and its status line is a string.
 */
module Controls {
  import opened WebApp
  import JsMath
  import JsDrag
  import Core

  /** `readParamsFromUI`: every field clamped into its range. */
  function ReadParams(ui: WebParams): (p: WebParams)
    ensures 0.1 <= p.l1 <= 50.0 && 0.1 <= p.l2 <= 50.0
    ensures 0.01 <= p.m1 <= 100.0 && 0.01 <= p.m2 <= 100.0
    ensures 0.0 <= p.g <= 50.0 && 0.0 <= p.damping <= 5.0
  {
    WebParams(JsMath.Clamp(ui.l1, 0.1, 50.0),
              JsMath.Clamp(ui.l2, 0.1, 50.0),
              JsMath.Clamp(ui.m1, 0.01, 100.0),
              JsMath.Clamp(ui.m2, 0.01, 100.0),
              JsMath.Clamp(ui.g, 0.0, 50.0),
              JsMath.Clamp(ui.damping, 0.0, 5.0))
  }

  /** All six fields within their ranges. */
  predicate InRange(p: WebParams) {
    && 0.1 <= p.l1 <= 50.0 && 0.1 <= p.l2 <= 50.0
    && 0.01 <= p.m1 <= 100.0 && 0.01 <= p.m2 <= 100.0
    && 0.0 <= p.g <= 50.0 && 0.0 <= p.damping <= 5.0
  }

  /** Values already in range pass unchanged, and only those. */
  lemma ReadParamsFixesExactlyInRange(ui: WebParams)
    ensures ReadParams(ui) == ui <==> InRange(ui)
  {
  }

  /** Validating twice is validating once. */
  lemma ReadParamsIdempotent(ui: WebParams)
    ensures ReadParams(ReadParams(ui)) == ReadParams(ui)
  {
    ReadParamsFixesExactlyInRange(ReadParams(ui));
  }

  /** The defaults are in range. */
  lemma DefaultsInRange()
    ensures InRange(DEFAULT_PARAMS)
  {
  }

  /** Validated parameters give the engine rods it can divide by and physical masses. */
  lemma ValidatedParamsSuitEngine(ui: WebParams)
    ensures var p := ReadParams(ui);
            var q := Core.Params(p.l1, p.l2, p.m1, p.m2, p.g, p.damping);
            && Core.Divisible(q)
            && Core.EPS <= 2.0 * q.m1 && 0.0 <= q.m2 && 0.0 <= q.g
  {
  }

  /** The three click handlers of `bindUIControls`. */
  class Panel {
    const app: App
    var status: string

    constructor (app: App)
      ensures this.app == app && status == ""
    {
      this.app := app;
      status := "";
    }

    /** "apply": validate the form, store and send the parameters, restart the timing. */
    method Apply(ui: WebParams)
      requires app.drag.Valid()
      modifies this`status, app`params, app`issued, app`acc, app.drag`hasPrev
      ensures app.drag.Valid()
      ensures old(app.drag.dragging) != JsDrag.NONE ==>
                && app.params == old(app.params) && app.issued == old(app.issued)
                && app.acc == old(app.acc) && app.drag.hasPrev == old(app.drag.hasPrev)
                && status == old(status)
      ensures old(app.drag.dragging) == JsDrag.NONE ==>
                && app.params == ReadParams(ui)
                && app.issued == old(app.issued) + [SyncParams(ReadParams(ui))]
                && app.acc == 0.0 && !app.drag.hasPrev
                && status == "Applied parameters."
      ensures app.drag.dragging == old(app.drag.dragging)
    {
      if app.drag.dragging != JsDrag.NONE {
        return;
      }
      app.params := ReadParams(ui);
      app.issued := app.issued + [SyncParams(app.params)];
      app.ResetFiltersAndTiming();
      status := "Applied parameters.";
    }

    /** "defaults": reset the pendulum, restore and send the default parameters. */
    method Defaults()
      requires app.drag.Valid()
      modifies this`status, app`params, app`issued, app`acc, app.drag`hasPrev
      ensures app.drag.Valid()
      ensures old(app.drag.dragging) != JsDrag.NONE ==>
                && app.params == old(app.params) && app.issued == old(app.issued)
                && app.acc == old(app.acc) && app.drag.hasPrev == old(app.drag.hasPrev)
                && status == old(status)
      ensures old(app.drag.dragging) == JsDrag.NONE ==>
                && app.params == DEFAULT_PARAMS
                && app.issued == old(app.issued) + [RESET_CALL, SyncParams(DEFAULT_PARAMS)]
                && app.acc == 0.0 && !app.drag.hasPrev
                && status == "Restored default parameters."
      ensures app.drag.dragging == old(app.drag.dragging)
    {
      if app.drag.dragging != JsDrag.NONE {
        return;
      }
      app.issued := app.issued + [RESET_CALL];
      app.params := DEFAULT_PARAMS;
      app.issued := app.issued + [SyncParams(app.params)];
      app.ResetFiltersAndTiming();
      status := "Restored default parameters.";
    }

    /** "reset": always allowed, even during a drag; parameters are kept. */
    method Reset()
      requires app.drag.Valid()
      modifies this`status, app`issued, app`acc, app.drag`hasPrev
      ensures app.drag.Valid()
      ensures app.params == old(app.params)
      ensures app.issued == old(app.issued) + [RESET_CALL]
      ensures app.acc == 0.0 && !app.drag.hasPrev
      ensures status == "Reset animation."
      ensures app.drag.dragging == old(app.drag.dragging)
    {
      app.issued := app.issued + [RESET_CALL];
      app.ResetFiltersAndTiming();
      status := "Reset animation.";
    }
  }
}
