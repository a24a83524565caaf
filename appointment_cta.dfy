/** The floating "Book Appointment" button
    (Frontend/src/components/AppointmentCTA.jsx): hidden on the sign-in,
    booking, administration and dashboard pages and below them, shown once
    the page is scrolled past 300 pixels, and leading signed-in visitors to
    the booking page and the others to the direct booking form. */
module AppointmentCta {
  const ExcludedPaths: seq<string> :=
    ["/login", "/register", "/appointment", "/admin", "/doctor/dashboard", "/patient/dashboard"]

  const BookingPath: string := "/appointment"
  const ScrollThreshold: int := 300

  /** `path === p || path.startsWith(p + '/')`. */
  predicate Under(path: string, p: string) {
    path == p || p + "/" <= path
  }

  /** `isExcludedPath`: the path is one of the excluded pages or below
      one. */
  predicate IsExcluded(path: string) {
    exists i :: 0 <= i < |ExcludedPaths| && Under(path, ExcludedPaths[i])
  }

  /** Everything below an excluded page is excluded too. */
  lemma ExclusionCoversSubpaths(path: string, rest: string)
    requires IsExcluded(path)
    ensures IsExcluded(path + "/" + rest)
  {
    var i :| 0 <= i < |ExcludedPaths| && Under(path, ExcludedPaths[i]);
    var p := ExcludedPaths[i];
    if path == p {
      assert p + "/" <= path + "/" + rest;
    } else {
      assert p + "/" <= path;
      assert path <= path + "/" + rest;
    }
    assert Under(path + "/" + rest, ExcludedPaths[i]);
  }

  /** A page whose name merely begins like an excluded one is not
      excluded, while the pages below one are; the home page and the
      doctors' list show the button. */
  lemma ExclusionExamples()
    ensures IsExcluded("/admin/doctors") && IsExcluded(BookingPath)
    ensures !IsExcluded("/administrator") && !IsExcluded("/") && !IsExcluded("/doctors")
  {
    assert Under("/admin/doctors", ExcludedPaths[3]);
    assert Under(BookingPath, ExcludedPaths[2]);
    var near := [1, 1, 2, 6, 1, 1];
    var doctors := [1, 1, 1, 1, 7, 1];
    forall i | 0 <= i < |ExcludedPaths|
      ensures !Under("/administrator", ExcludedPaths[i]) && !Under("/doctors", ExcludedPaths[i])
    {
      DiffersAt("/administrator", ExcludedPaths[i], near[i]);
      DiffersAt("/doctors", ExcludedPaths[i], doctors[i]);
    }
    assert forall i :: 0 <= i < |ExcludedPaths| ==> !Under("/", ExcludedPaths[i]);
  }

  /** A path that differs from `p + "/"` at some place within both is not
      below `p`, unless it is `p` itself. */
  lemma DiffersAt(path: string, p: string, k: nat)
    requires path != p && k < |path| && k <= |p| && path[k] != (p + "/")[k]
    ensures !Under(path, p)
  {
  }

  /** Where "Book now" leads. */
  datatype BookNow = GoToBooking(path: string) | OpenDirectForm

  class Cta {
    var isPopupOpen: bool
    var isButtonVisible: bool
    var shouldShow: bool
    var showDirectForm: bool

    constructor ()
      ensures !isPopupOpen && isButtonVisible && shouldShow && !showDirectForm
    {
      isPopupOpen := false;
      isButtonVisible := true;
      shouldShow := true;
      showDirectForm := false;
    }

    /** The floating button is drawn. */
    predicate ButtonShown()
      reads this
    {
      shouldShow && isButtonVisible && !isPopupOpen && !showDirectForm
    }

    /** The route effect. */
    method RouteChanged(path: string)
      modifies this`shouldShow
      ensures shouldShow <==> !IsExcluded(path)
    {
      shouldShow := !IsExcluded(path);
    }

    /** The scroll listener. */
    method Scrolled(scrollY: int)
      modifies this`isButtonVisible
      ensures isButtonVisible <==> scrollY > ScrollThreshold
    {
      isButtonVisible := scrollY > ScrollThreshold;
    }

    /** `handleBookNowClick`: signed-in visitors go to the booking page;
        the others get the direct form, which hides the button. */
    method HandleBookNowClick(isAuthenticated: bool) returns (outcome: BookNow)
      modifies this`showDirectForm
      ensures isAuthenticated ==> outcome == GoToBooking(BookingPath) && showDirectForm == old(showDirectForm)
      ensures !isAuthenticated ==> outcome == OpenDirectForm && showDirectForm && !ButtonShown()
    {
      if isAuthenticated {
        outcome := GoToBooking(BookingPath);
      } else {
        outcome := OpenDirectForm;
        showDirectForm := true;
      }
    }

    method CloseDirectForm()
      modifies this`showDirectForm
      ensures !showDirectForm
    {
      showDirectForm := false;
    }
  }

  /** On the booking page the button is gone, wherever the page is
      scrolled. */
  method BookingPageHasNoButton(scrollY: int) returns (shown: bool)
    ensures !shown
  {
    var cta := new Cta();
    cta.Scrolled(scrollY);
    cta.RouteChanged(BookingPath);
    ExclusionExamples();
    shown := cta.ButtonShown();
  }
}
