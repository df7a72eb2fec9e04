/**
 * The admin list: the admins and moderators (never the super admin), searched by
 * username, email and role once Search is pressed, the form that adds one after
 * checking the role and that the email is new, and the confirmed delete.
 */
module AdminList {
  import opened Wrappers
  import opened Text
  import opened Collections
  import opened Effects

  datatype Admin = Admin(id: string, username: string, email: string, role: string)

  /** The search inputs; an empty one is no constraint. */
  datatype Filters = Filters(username: string, email: string, role: string)

  const NoFilters := Filters("", "", "")

  /** The add form. */
  datatype Form = Form(username: string, email: string, password: string, role: string)

  const EmptyForm := Form("", "", "", "")

  const LoadFailed := "Data load korte somossha hoyeche."
  const NoRole := "Doya kore ekta Role (Admin ba Moderator) select korun."
  const EmailTakenMessage := "Ei email diye already ekjon admin/moderator register kora ache."
  const AddFailed := "Admin add korte somossha hoyeche. Abar chesta korun."
  const AddRaised := "Network error occurred."
  const DeleteFailed := "Delete korte somossha hoyeche."
  const DeleteRaised := "Delete request fail hoyeche."

  function NotSuper(): Admin -> bool {
    (a: Admin) => a.role != "superAdmin"
  }

  /** The fetched list keeps everyone but the super admin, in their order. */
  lemma NoSuperAdminListed(fetched: seq<Admin>)
    ensures forall a :: a in Filter(fetched, NotSuper()) <==> a in fetched && a.role != "superAdmin"
    ensures |Filter(fetched, NotSuper())| <= |fetched|
  {
  }

  predicate Matches(a: Admin, f: Filters) {
    (f.username == "" || ContainsCI(a.username, f.username))
    && (f.email == "" || ContainsCI(a.email, f.email))
    && (f.role == "" || a.role == f.role)
  }

  function Matcher(f: Filters): Admin -> bool {
    a => Matches(a, f)
  }

  /** `admins.some(admin => admin.email.toLowerCase() === formData.email.toLowerCase())`. */
  predicate EmailTaken(admins: seq<Admin>, email: string) {
    exists i :: 0 <= i < |admins| && Lower(admins[i].email) == Lower(email)
  }

  /** The check ignores case: an address that differs only in case is taken. */
  lemma EmailTakenIgnoresCase(admins: seq<Admin>, a: Admin, email: string)
    requires a in admins && Lower(a.email) == Lower(email)
    ensures EmailTaken(admins, email)
  {
    var i :| 0 <= i < |admins| && admins[i] == a;
  }

  function Other(id: string): Admin -> bool {
    (a: Admin) => a.id != id
  }

  class AdminPage {
    var admins: seq<Admin>
    var loading: bool
    var filters: Filters
    var appliedFilters: Filters
    var showModal: bool
    var showErrorModal: bool
    var errorMessage: string
    var showDeleteModal: bool
    var adminToDelete: Option<string>
    var submitting: bool
    var formData: Form

    constructor()
      ensures admins == [] && loading && filters == NoFilters && appliedFilters == NoFilters
      ensures !showModal && !showErrorModal && errorMessage == "" && !showDeleteModal
      ensures adminToDelete.None? && !submitting && formData == EmptyForm
    {
      admins := [];
      loading := true;
      filters := NoFilters;
      appliedFilters := NoFilters;
      showModal := false;
      showErrorModal := false;
      errorMessage := "";
      showDeleteModal := false;
      adminToDelete := None;
      submitting := false;
      formData := EmptyForm;
    }

    /** What the table shows: the admins passing the applied filters. */
    function FilteredAdmins(): seq<Admin>
      reads this
    {
      Filter(admins, Matcher(appliedFilters))
    }

    /** The table shows exactly the admins passing the filters last applied, in list order. */
    lemma FilteredFinds()
      ensures forall a :: a in FilteredAdmins() <==> a in admins && Matches(a, appliedFilters)
    {
    }

    /** `triggerErrorModal`. */
    method ShowError(msg: string)
      modifies this`errorMessage, this`showErrorModal
      ensures errorMessage == msg && showErrorModal
    {
      errorMessage := msg;
      showErrorModal := true;
    }

    /**
     * `fetchAdmins`: a list replaces the admins without the super admin; a failure keeps
     * them and opens the error dialog. The spinner stops either way.
     */
    method Load(fetched: Option<seq<Admin>>)
      modifies this`admins, this`loading, this`errorMessage, this`showErrorModal
      ensures fetched.Some? ==>
        admins == Filter(fetched.value, NotSuper())
        && errorMessage == old(errorMessage) && showErrorModal == old(showErrorModal)
      ensures fetched.None? ==> admins == old(admins) && errorMessage == LoadFailed && showErrorModal
      ensures !loading
      ensures forall a :: a in admins && fetched.Some? ==> a.role != "superAdmin"
    {
      loading := true;
      if fetched.Some? {
        admins := Filter(fetched.value, NotSuper());
      } else {
        ShowError(LoadFailed);
      }
      loading := false;
    }

    /** Typing in a search input changes only the inputs, not the table. */
    method EditFilters(f: Filters)
      modifies this`filters
      ensures filters == f
    {
      filters := f;
    }

    /** `handleSearchClick`: the inputs become the applied filters. */
    method Search()
      modifies this`appliedFilters
      ensures appliedFilters == filters
    {
      appliedFilters := filters;
    }

    /** `handleResetClick`: inputs and applied filters both empty, so every admin is shown. */
    method Reset()
      modifies this`filters, this`appliedFilters
      ensures filters == NoFilters && appliedFilters == NoFilters
      ensures FilteredAdmins() == admins
    {
      filters := NoFilters;
      appliedFilters := NoFilters;
      FilterAllPass(admins, Matcher(NoFilters));
    }

    /** Typing in the add form. */
    method EditForm(f: Form)
      modifies this`formData
      ensures formData == f
    {
      formData := f;
    }

    /**
     * `handleSubmit`. Without a role, or with an email already listed (ignoring case),
     * the error dialog opens and nothing is sent. Otherwise the form is posted, and on
     * an ok answer the list is fetched again, the dialog closes and the form empties;
     * any other answer opens the error dialog. `reload` says whether the list is fetched
     * again.
     */
    method Submit(reply: Reply) returns (posted: Option<Form>, reload: bool)
      modifies this`errorMessage, this`showErrorModal, this`submitting, this`showModal, this`formData
      ensures old(formData).role == "" ==>
        posted.None? && !reload && errorMessage == NoRole && showErrorModal
        && submitting == old(submitting) && showModal == old(showModal) && formData == old(formData)
      ensures old(formData).role != "" && EmailTaken(admins, old(formData).email) ==>
        posted.None? && !reload && errorMessage == EmailTakenMessage && showErrorModal
        && !submitting && showModal == old(showModal) && formData == old(formData)
      ensures old(formData).role != "" && !EmailTaken(admins, old(formData).email) ==>
        posted == Some(old(formData)) && !submitting
        && reload == (reply == Answered(true))
        && showModal == (if reply == Answered(true) then false else old(showModal))
        && formData == (if reply == Answered(true) then EmptyForm else old(formData))
        && (reply == Answered(true) ==> errorMessage == old(errorMessage) && showErrorModal == old(showErrorModal))
        && (reply == Answered(false) ==> errorMessage == AddFailed && showErrorModal)
        && (reply.Raised? ==> errorMessage == AddRaised && showErrorModal)
      ensures posted.Some? ==> posted.value.role != "" && !EmailTaken(admins, posted.value.email)
    {
      posted := None;
      reload := false;
      if formData.role == "" {
        ShowError(NoRole);
        return;
      }
      submitting := true;
      if EmailTaken(admins, formData.email) {
        ShowError(EmailTakenMessage);
        submitting := false;
        return;
      }
      posted := Some(formData);
      if reply == Answered(true) {
        reload := true;
        showModal := false;
        formData := EmptyForm;
      } else if reply.Answered? {
        ShowError(AddFailed);
      } else {
        ShowError(AddRaised);
      }
      submitting := false;
    }

    /** The trash button: remember the id and ask. */
    method ConfirmDeleteRequest(id: string)
      modifies this`adminToDelete, this`showDeleteModal
      ensures adminToDelete == Some(id) && showDeleteModal
    {
      adminToDelete := Some(id);
      showDeleteModal := true;
    }

    /**
     * `executeDelete`. With no id (or an empty one, which is falsy) it does nothing. An ok answer removes that admin and
     * forgets the id; any other answer closes the dialog, keeps the list and the id, and
     * opens the error dialog.
     */
    method ExecuteDelete(reply: Reply)
      modifies this`admins, this`showDeleteModal, this`adminToDelete, this`errorMessage, this`showErrorModal
      ensures old(adminToDelete).None? || old(adminToDelete) == Some("") ==>
        admins == old(admins) && showDeleteModal == old(showDeleteModal) && adminToDelete == old(adminToDelete)
        && errorMessage == old(errorMessage) && showErrorModal == old(showErrorModal)
      ensures old(adminToDelete).Some? && old(adminToDelete) != Some("") && reply == Answered(true) ==>
        admins == Filter(old(admins), Other(old(adminToDelete).value)) && !showDeleteModal && adminToDelete.None?
        && errorMessage == old(errorMessage) && showErrorModal == old(showErrorModal)
      ensures old(adminToDelete).Some? && old(adminToDelete) != Some("") && reply != Answered(true) ==>
        admins == old(admins) && !showDeleteModal && adminToDelete == old(adminToDelete) && showErrorModal
        && errorMessage == (if reply.Raised? then DeleteRaised else DeleteFailed)
    {
      if adminToDelete.None? || adminToDelete == Some("") {
        return;
      }
      var id := adminToDelete.value;
      if reply == Answered(true) {
        admins := Filter(admins, Other(id));
        showDeleteModal := false;
        adminToDelete := None;
      } else if reply.Answered? {
        showDeleteModal := false;
        ShowError(DeleteFailed);
      } else {
        showDeleteModal := false;
        ShowError(DeleteRaised);
      }
    }
  }

  /** A delete removes only admins with that id and keeps the others in order. */
  lemma DeleteOnlyThatId(admins: seq<Admin>, id: string)
    ensures forall a :: a in Filter(admins, Other(id)) <==> a in admins && a.id != id
    ensures forall a :: a in admins && a.id == id ==> a !in Filter(admins, Other(id))
  {
  }

  /** Once Search is pressed with empty inputs, or after a reset, the table is the whole list. */
  lemma EmptyFiltersShowAll(admins: seq<Admin>)
    ensures Filter(admins, Matcher(NoFilters)) == admins
  {
    FilterAllPass(admins, Matcher(NoFilters));
  }

  /** A role filter keeps only that role. */
  lemma RoleFilterExact(admins: seq<Admin>, f: Filters)
    requires f.role != ""
    ensures forall a :: a in Filter(admins, Matcher(f)) ==> a.role == f.role
  {
  }
}
