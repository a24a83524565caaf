/** The administrator's list of doctors (Frontend/src/pages/AdminDoctors.jsx):
    the photo each card shows, the department drop-down built from the
    list, the department filter and the delete action. */
module AdminDoctors {
  import opened Common

  /** `docPhoto` as the page may find it: missing, an uploaded photo's
      object (with "" for a missing `url`), or an older plain file path. */
  datatype PhotoValue = NoPhoto | PhotoObject(url: string) | PhotoPath(path: string)

  /** A doctor as the list shows it; "" for a missing department. */
  datatype DoctorCard = DoctorCard(id: Id, firstName: string, lastName: string, doctorDepartment: string, docPhoto: PhotoValue)

  const ServerOrigin: string := "http://localhost:4000/"
  const FallbackPhoto: string := "/doc.jpg"

  /** `path.replace(/\\/g, '/')`: every backslash becomes a slash. */
  function Slashes(path: string): (r: string)
    ensures |r| == |path|
    ensures forall i :: 0 <= i < |path| ==> r[i] == (if path[i] == '\\' then '/' else path[i])
    ensures '\\' !in r
  {
    if path == [] then [] else [if path[0] == '\\' then '/' else path[0]] + Slashes(path[1..])
  }

  /** Replacing twice is replacing once. */
  lemma SlashesIdempotent(path: string)
    ensures Slashes(Slashes(path)) == Slashes(path)
  {
  }

  /** `resolveDoctorPhoto`: the photo's own address when it has one; a
      plain path is served from the backend with forward slashes only; in
      every other case, the placeholder. */
  function ResolveDoctorPhoto(photo: PhotoValue): (src: string)
    ensures photo.PhotoObject? && photo.url != "" ==> src == photo.url
    ensures photo.PhotoPath? ==>
      |src| == |ServerOrigin| + |photo.path| && src[..|ServerOrigin|] == ServerOrigin
      && '\\' !in src[|ServerOrigin|..]
    ensures photo.NoPhoto? || (photo.PhotoObject? && photo.url == "") ==> src == FallbackPhoto
  {
    match photo
    case PhotoObject(url) => if url != "" then url else FallbackPhoto
    case PhotoPath(path) =>
      var r := ServerOrigin + Slashes(path);
      assert r[|ServerOrigin|..] == Slashes(path);
      r
    case NoPhoto => FallbackPhoto
  }

  function DepartmentsOf(doctors: seq<DoctorCard>): (ds: seq<string>)
    ensures |ds| == |doctors|
    ensures forall i :: 0 <= i < |doctors| ==> ds[i] == doctors[i].doctorDepartment
  {
    seq(|doctors|, i requires 0 <= i < |doctors| => doctors[i].doctorDepartment)
  }

  /** `departments`: "all", then each department of the list once, in the
      order of first appearance; just "all" for an empty list. */
  function Departments(doctors: seq<DoctorCard>): (r: seq<string>)
    ensures |r| >= 1 && r[0] == "all"
    ensures forall d :: d in r[1..] <==> exists i :: 0 <= i < |doctors| && doctors[i].doctorDepartment == d
    ensures NoDuplicates(r[1..])
  {
    var ds := DepartmentsOf(doctors);
    var r := if |doctors| > 0 then ["all"] + Distinct(ds) else ["all"];
    assert r[1..] == Distinct(ds);
    r
  }

  function InDepartment(department: string): DoctorCard -> bool {
    (d: DoctorCard) => d.doctorDepartment == department
  }

  /** `filteredDoctors`: all of them for "all", else those of the chosen
      department, in list order. */
  function FilteredDoctors(doctors: seq<DoctorCard>, selected: string): (r: seq<DoctorCard>)
    ensures selected == "all" ==> r == doctors
    ensures selected != "all" ==> forall d :: d in r <==> d in doctors && d.doctorDepartment == selected
  {
    if selected == "all" then doctors else Filter(doctors, InDepartment(selected))
  }

  /** No department in the drop-down leads to an empty list. */
  lemma EveryOptionShowsADoctor(doctors: seq<DoctorCard>, k: nat)
    requires 0 < k < |Departments(doctors)|
    ensures |FilteredDoctors(doctors, Departments(doctors)[k])| > 0
  {
    var d := Departments(doctors)[k];
    assert d in Departments(doctors)[1..];
    var i :| 0 <= i < |doctors| && doctors[i].doctorDepartment == d;
    if d != "all" {
      assert doctors[i] in FilteredDoctors(doctors, d);
    }
  }

  function NotId(id: Id): DoctorCard -> bool {
    (d: DoctorCard) => d.id != id
  }

  /** `prev.filter(doc => doc._id !== doctorId)`. */
  function WithoutDoctor(doctors: seq<DoctorCard>, id: Id): (r: seq<DoctorCard>)
    ensures forall d :: d in r <==> d in doctors && d.id != id
  {
    Filter(doctors, NotId(id))
  }

  class AdminDoctorsPage {
    var doctors: seq<DoctorCard>
    var selectedDepartment: string

    constructor ()
      ensures doctors == [] && selectedDepartment == "all"
    {
      doctors := [];
      selectedDepartment := "all";
    }

    /** The fetch effect: a list that arrives replaces the current one; a
        failed fetch keeps it. */
    method Loaded(fetched: Option<seq<DoctorCard>>)
      modifies this`doctors
      ensures doctors == if fetched.Some? then fetched.value else old(doctors)
    {
      if fetched.Some? {
        doctors := fetched.value;
      }
    }

    method SelectDepartment(department: string)
      modifies this`selectedDepartment
      ensures selectedDepartment == department
    {
      selectedDepartment := department;
    }

    /** `handleDeleteDoctor`: after the confirmation and the server's
        acceptance, the doctor leaves the list. */
    method HandleDeleteDoctor(id: Id, confirmed: bool, accepted: bool)
      modifies this`doctors
      ensures doctors == if confirmed && accepted then WithoutDoctor(old(doctors), id) else old(doctors)
    {
      if confirmed && accepted {
        doctors := WithoutDoctor(doctors, id);
      }
    }
  }
}
