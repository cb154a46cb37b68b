/** The part of Streamlit's per-session state the prediction pages use. */
module Session {
  import opened Wrappers

  /** The flag after `if 'show_popup' not in st.session_state: st.session_state.show_popup = False`. */
  function Initialised(flag: Option<bool>): (r: Option<bool>)
    ensures r.Some?
    ensures flag.Some? ==> r == flag
    ensures flag.None? ==> r == Some(false)
  {
    if flag.None? then Some(false) else flag
  }

  /**
   * `st.session_state`, reduced to its `show_popup` key. The state outlives
   * one run of a page script: each rerun reads what the previous one left.
   */
  class SessionState {
    /** `None` while the key is absent. */
    var showPopup: Option<bool>

    /** A fresh browser session: no key set. */
    constructor ()
      ensures showPopup == None
    {
      showPopup := None;
    }

    /** Sets `show_popup` to False if absent, and leaves a present value alone. */
    method InitShowPopup()
      modifies this
      ensures showPopup == Initialised(old(showPopup))
    {
      if showPopup.None? {
        showPopup := Some(false);
      }
    }

    /** `st.session_state.show_popup = True`. */
    method SetShowPopup()
      modifies this
      ensures showPopup == Some(true)
    {
      showPopup := Some(true);
    }
  }
}
