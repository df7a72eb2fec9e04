/**
 * The deposit agents: the payment numbers members deposit to, added through a form
 * that needs a name and a number, and deleted after a confirmation dialog.
 */
module DepositAgent {
  import opened Wrappers
  import opened Collections
  import opened Effects

  /** An agent as listed; `wallet` is the form's `method` (Bkash by default). */
  datatype Agent = Agent(id: string, name: string, number: string, wallet: string)

  datatype Form = Form(name: string, number: string, wallet: string)

  const EmptyForm := Form("", "", "Bkash")

  /** The message toast; `kind` is "", "error" or "success". */
  datatype Message = Message(kind: string, text: string)

  const NoMessage := Message("", "")

  /** How the list fetch ends: a JSON array, some other JSON value, or an exception. */
  datatype Fetched = JsonArray(items: seq<Agent>) | NotArray | Failed

  function Other(id: string): Agent -> bool {
    (a: Agent) => a.id != id
  }

  /** The toast after the add request was sent. */
  function AddMessage(reply: Reply): (m: Message)
    ensures m.kind == "success" <==> reply == Answered(true)
    ensures m.kind != "success" ==> m.kind == "error"
  {
    if reply == Answered(true) then Message("success", "Agent added successfully!")
    else if reply.Answered? then Message("error", "Failed to add agent")
    else Message("error", "Network error")
  }

  /** The toast after the delete request was sent. */
  function DeleteMessage(reply: Reply): (m: Message)
    ensures m.kind == "success" <==> reply == Answered(true)
    ensures m.kind != "success" ==> m.kind == "error"
  {
    if reply == Answered(true) then Message("success", "Agent deleted successfully")
    else if reply.Answered? then Message("error", "Failed to delete")
    else Message("error", "Network error")
  }

  class AgentPage {
    var agents: seq<Agent>
    var loading: bool
    var showAddModal: bool
    var showDeleteModal: bool
    var agentToDelete: Option<string>
    var actionLoading: bool
    var message: Message
    var formData: Form

    constructor()
      ensures agents == [] && loading && !showAddModal && !showDeleteModal && agentToDelete.None?
      ensures !actionLoading && message == NoMessage && formData == EmptyForm
    {
      agents := [];
      loading := true;
      showAddModal := false;
      showDeleteModal := false;
      agentToDelete := None;
      actionLoading := false;
      message := NoMessage;
      formData := EmptyForm;
    }

    /** `fetchAgents`: only an array replaces the list; the spinner stops either way. */
    method Load(fetched: Fetched)
      modifies this`agents, this`loading
      ensures agents == (if fetched.JsonArray? then fetched.items else old(agents))
      ensures !loading
    {
      if fetched.JsonArray? {
        agents := fetched.items;
      }
      loading := false;
    }

    /** Typing in the add form. */
    method EditForm(f: Form)
      modifies this`formData
      ensures formData == f
    {
      formData := f;
    }

    /**
     * `handleAddAgent`: without a name or a number an error shows and nothing is sent;
     * otherwise the form is posted, and an ok answer closes the dialog, resets the form
     * and asks for the list again (`reload`).
     */
    method AddAgent(reply: Reply) returns (posted: Option<Form>, reload: bool)
      modifies this`message, this`actionLoading, this`showAddModal, this`formData
      ensures old(formData).name == "" || old(formData).number == "" ==>
        posted.None? && !reload && message == Message("error", "Please fill all fields")
        && actionLoading == old(actionLoading) && showAddModal == old(showAddModal) && formData == old(formData)
      ensures old(formData).name != "" && old(formData).number != "" ==>
        posted == Some(old(formData)) && message == AddMessage(reply) && !actionLoading
        && reload == (reply == Answered(true))
        && showAddModal == (if reply == Answered(true) then false else old(showAddModal))
        && formData == (if reply == Answered(true) then EmptyForm else old(formData))
      ensures posted.Some? ==> posted.value.name != "" && posted.value.number != ""
    {
      if formData.name == "" || formData.number == "" {
        message := Message("error", "Please fill all fields");
        return None, false;
      }
      actionLoading := true;
      posted := Some(formData);
      message := AddMessage(reply);
      reload := reply == Answered(true);
      if reply == Answered(true) {
        showAddModal := false;
        formData := EmptyForm;
      }
      actionLoading := false;
    }

    /** `confirmDelete`: remember the id and ask. */
    method ConfirmDelete(id: string)
      modifies this`agentToDelete, this`showDeleteModal
      ensures agentToDelete == Some(id) && showDeleteModal
    {
      agentToDelete := Some(id);
      showDeleteModal := true;
    }

    /**
     * `handleDelete`: with no id (or an empty one) nothing happens. Otherwise an ok
     * answer removes the agents with that id and closes the dialog, any other answer
     * keeps the list, and the id is forgotten after every attempt.
     */
    method Delete(reply: Reply) returns (requested: Option<string>)
      modifies this`agents, this`message, this`showDeleteModal, this`actionLoading, this`agentToDelete
      ensures old(agentToDelete).None? || old(agentToDelete) == Some("") ==>
        requested.None? && agents == old(agents) && message == old(message)
        && showDeleteModal == old(showDeleteModal) && actionLoading == old(actionLoading)
        && agentToDelete == old(agentToDelete)
      ensures old(agentToDelete).Some? && old(agentToDelete) != Some("") ==>
        requested == old(agentToDelete) && agentToDelete.None? && !actionLoading
        && message == DeleteMessage(reply)
        && agents == (if reply == Answered(true) then Filter(old(agents), Other(old(agentToDelete).value)) else old(agents))
        && showDeleteModal == (if reply == Answered(true) then false else old(showDeleteModal))
    {
      if agentToDelete.None? || agentToDelete == Some("") {
        return None;
      }
      var id := agentToDelete.value;
      requested := Some(id);
      actionLoading := true;
      if reply == Answered(true) {
        agents := Filter(agents, Other(id));
        showDeleteModal := false;
      }
      message := DeleteMessage(reply);
      actionLoading := false;
      agentToDelete := None;
    }
  }

  /** A delete removes the agents with that id and no other, keeping their order. */
  lemma DeleteOnlyThatId(agents: seq<Agent>, id: string)
    ensures forall a :: a in Filter(agents, Other(id)) <==> a in agents && a.id != id
    ensures |Filter(agents, Other(id))| <= |agents|
  {
  }

  /** Deleting an id that is not listed keeps the whole list. */
  lemma DeleteUnknownKeepsAll(agents: seq<Agent>, id: string)
    requires forall i :: 0 <= i < |agents| ==> agents[i].id != id
    ensures Filter(agents, Other(id)) == agents
  {
    FilterAllPass(agents, Other(id));
  }
}
