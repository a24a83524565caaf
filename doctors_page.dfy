/** The public list of doctors (Frontend/src/pages/Doctors.jsx): the list
    and the department tabs are set together from a response that carries
    doctors, the tabs skip doctors without a department, and at most nine
    cards are shown. */
module DoctorsPage {
  import opened Common
  import opened AdminDoctors

  const MaxCards: nat := 9

  function HasDepartment(): DoctorCard -> bool {
    (d: DoctorCard) => d.doctorDepartment != ""
  }

  /** `['All', ...new Set(doctors.filter(d => d.doctorDepartment).map(...))]`. */
  function Tabs(doctors: seq<DoctorCard>): (r: seq<string>)
    ensures |r| >= 1 && r[0] == "All"
    ensures forall d :: d in r[1..] <==>
      d != "" && exists i :: 0 <= i < |doctors| && doctors[i].doctorDepartment == d
    ensures NoDuplicates(r[1..])
  {
    var named := Filter(doctors, HasDepartment());
    var r := ["All"] + Distinct(DepartmentsOf(named));
    assert r[1..] == Distinct(DepartmentsOf(named));
    forall d | d != "" && exists i :: 0 <= i < |doctors| && doctors[i].doctorDepartment == d
      ensures d in r[1..]
    {
      var i :| 0 <= i < |doctors| && doctors[i].doctorDepartment == d;
      assert doctors[i] in named;
      var j :| 0 <= j < |named| && named[j] == doctors[i];
      assert DepartmentsOf(named)[j] == d;
    }
    forall d | d in r[1..]
      ensures d != "" && exists i :: 0 <= i < |doctors| && doctors[i].doctorDepartment == d
    {
      var j :| 0 <= j < |named| && DepartmentsOf(named)[j] == d;
      assert named[j] in doctors;
    }
    r
  }

  /** `filteredDoctors`: all for "All", else those of the chosen tab. */
  function Chosen(doctors: seq<DoctorCard>, selected: string): (r: seq<DoctorCard>)
    ensures selected == "All" ==> r == doctors
    ensures selected != "All" ==> forall d :: d in r <==> d in doctors && d.doctorDepartment == selected
  {
    if selected == "All" then doctors else Filter(doctors, InDepartment(selected))
  }

  /** `filteredDoctors.slice(0, 9)`: the first nine, or all when fewer. */
  function Cards(doctors: seq<DoctorCard>, selected: string): (r: seq<DoctorCard>)
    ensures |r| == if |Chosen(doctors, selected)| < MaxCards then |Chosen(doctors, selected)| else MaxCards
    ensures r <= Chosen(doctors, selected)
  {
    var chosen := Chosen(doctors, selected);
    if |chosen| <= MaxCards then chosen else chosen[..MaxCards]
  }

  /** Every tab after "All" shows at least one card. */
  lemma EveryTabShowsACard(doctors: seq<DoctorCard>, k: nat)
    requires 0 < k < |Tabs(doctors)|
    ensures |Cards(doctors, Tabs(doctors)[k])| > 0
  {
    var d := Tabs(doctors)[k];
    assert d in Tabs(doctors)[1..];
    var i :| 0 <= i < |doctors| && doctors[i].doctorDepartment == d;
    if d != "All" {
      assert doctors[i] in Chosen(doctors, d);
    }
  }

  class DoctorsList {
    var doctors: seq<DoctorCard>
    var departments: seq<string>
    var selectedDepartment: string

    constructor ()
      ensures doctors == [] && departments == [] && selectedDepartment == "All"
    {
      doctors := [];
      departments := [];
      selectedDepartment := "All";
    }

    /** The fetch effect: a response with a `doctors` list sets the list
        and the tabs from it; any other response, or a failure, changes
        neither. */
    method Loaded(response: Option<seq<DoctorCard>>)
      modifies this`doctors, this`departments
      ensures response.Some? ==> doctors == response.value && departments == Tabs(response.value)
      ensures response.None? ==> doctors == old(doctors) && departments == old(departments)
    {
      if response.Some? {
        doctors := response.value;
        departments := Tabs(response.value);
      }
    }

    method SelectDepartment(department: string)
      modifies this`selectedDepartment
      ensures selectedDepartment == department
    {
      selectedDepartment := department;
    }
  }
}
