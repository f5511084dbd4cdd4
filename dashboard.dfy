/** The admin dashboard's list logic: the status-and-search filter over the fetched
    requests, the status badge colours, and the state changes of fetching the list,
    changing a request's status and adding a communication. The three network calls
    are parameters: what each answered. */
module Dashboard {
  import opened Values

  datatype Communication = Communication(
    id: string, kind: string, subject: string, content: string, channel: string,
    followUpRequired: bool, followUpDate: Option<string>, createdAt: string, createdBy: string)

  datatype ConsultingRequest = ConsultingRequest(
    id: string, name: string, email: string, company: string, phone: string,
    projectType: string, budget: string, timeline: string, description: string,
    preferredDate: string, preferredTime: string, communicationPreference: string,
    status: string, createdAt: string, updatedAt: string, communications: seq<Communication>)

  /** The communication form. */
  datatype CommunicationDraft = CommunicationDraft(
    kind: string, subject: string, content: string, channel: string,
    followUpRequired: bool, followUpDate: string)

  const BlankDraft := CommunicationDraft("email", "", "", "email", false, "")

  // ---------------------------------------------------------------------------
  // The filter

  predicate MatchesStatus(filterStatus: string, r: ConsultingRequest) {
    filterStatus == "all" || r.status == filterStatus
  }

  predicate MatchesSearch(term: string, r: ConsultingRequest) {
    term == ""
      || Includes(Lower(r.name), Lower(term))
      || Includes(Lower(r.company), Lower(term))
      || Includes(Lower(r.email), Lower(term))
  }

  predicate Shown(filterStatus: string, term: string, r: ConsultingRequest) {
    MatchesStatus(filterStatus, r) && MatchesSearch(term, r)
  }

  /** `filteredRequests`. */
  function FilteredRequests(requests: seq<ConsultingRequest>, filterStatus: string, term: string): seq<ConsultingRequest> {
    Filter(requests, r => Shown(filterStatus, term, r))
  }

  /** The filtered list keeps the fetched order and drops only some requests; a request
      is shown exactly when it matches both the status filter and the search, and then
      as often as it was fetched. */
  lemma FilteredIsOrderedSelection(requests: seq<ConsultingRequest>, filterStatus: string, term: string)
    ensures IsSubsequence(FilteredRequests(requests, filterStatus, term), requests)
    ensures forall r :: r in requests ==> (r in FilteredRequests(requests, filterStatus, term) <==> Shown(filterStatus, term, r))
    ensures forall r :: Shown(filterStatus, term, r) ==>
      multiset(FilteredRequests(requests, filterStatus, term))[r] == multiset(requests)[r]
  {
    var f := FilteredRequests(requests, filterStatus, term);
    forall r | Shown(filterStatus, term, r) ensures multiset(f)[r] == multiset(requests)[r] {
      FilterCount(requests, r => Shown(filterStatus, term, r), r);
    }
    forall r | r in requests ensures r in f <==> Shown(filterStatus, term, r) {
      if r in f {
        var i :| 0 <= i < |f| && f[i] == r;
      }
    }
  }

  /** With the filter at 'all' and an empty search, every request is shown. */
  lemma NoFilterShowsAll(requests: seq<ConsultingRequest>)
    ensures FilteredRequests(requests, "all", "") == requests
  {
    FilterKeepsAll(requests, r => Shown("all", "", r));
  }

  /** A shown request has the chosen status (unless it is 'all') and, for a non-empty
      search, contains the lower-cased term in its lower-cased name, company or email. */
  lemma ShownMatch(requests: seq<ConsultingRequest>, filterStatus: string, term: string, r: ConsultingRequest)
    requires r in FilteredRequests(requests, filterStatus, term)
    ensures filterStatus != "all" ==> r.status == filterStatus
    ensures term != "" ==>
      Includes(Lower(r.name), Lower(term)) || Includes(Lower(r.company), Lower(term)) || Includes(Lower(r.email), Lower(term))
  {
    var f := FilteredRequests(requests, filterStatus, term);
    var i :| 0 <= i < |f| && f[i] == r;
  }

  // ---------------------------------------------------------------------------
  // List updates

  /** `prev.map(req => req.id === id ? { ...req, status } : req)`. */
  function SetStatusWhere(rs: seq<ConsultingRequest>, id: string, status: string): (out: seq<ConsultingRequest>)
    ensures |out| == |rs|
    ensures forall i :: 0 <= i < |rs| ==> out[i] == if rs[i].id == id then rs[i].(status := status) else rs[i]
  {
    if rs == [] then [] else
      [if rs[0].id == id then rs[0].(status := status) else rs[0]] + SetStatusWhere(rs[1..], id, status)
  }

  /** `prev.map(req => req.id === id ? updated : req)`. */
  function ReplaceWhere(rs: seq<ConsultingRequest>, id: string, updated: ConsultingRequest): (out: seq<ConsultingRequest>)
    ensures |out| == |rs|
    ensures forall i :: 0 <= i < |rs| ==> out[i] == if rs[i].id == id then updated else rs[i]
  {
    if rs == [] then [] else
      [if rs[0].id == id then updated else rs[0]] + ReplaceWhere(rs[1..], id, updated)
  }

  /** Setting the same status twice is setting it once. */
  lemma {:induction false} SetStatusIdempotent(rs: seq<ConsultingRequest>, id: string, status: string)
    ensures SetStatusWhere(SetStatusWhere(rs, id, status), id, status) == SetStatusWhere(rs, id, status)
  {
    if rs != [] {
      SetStatusIdempotent(rs[1..], id, status);
      assert SetStatusWhere(rs, id, status)[1..] == SetStatusWhere(rs[1..], id, status);
    }
  }

  /** A status change keeps every id in its place, so a later filter by the new status
      shows each changed request. */
  lemma SetStatusShownUnderNewStatus(rs: seq<ConsultingRequest>, id: string, status: string, i: nat)
    requires i < |rs| && rs[i].id == id
    ensures SetStatusWhere(rs, id, status)[i] in FilteredRequests(SetStatusWhere(rs, id, status), status, "")
  {
  }

  // ---------------------------------------------------------------------------
  // Colours

  /** `getStatusColor`. */
  function StatusColor(status: string): string {
    match status
    case "pending" => "bg-yellow-100 text-yellow-800"
    case "contacted" => "bg-blue-100 text-blue-800"
    case "scheduled" => "bg-green-100 text-green-800"
    case "completed" => "bg-gray-100 text-gray-800"
    case "cancelled" => "bg-red-100 text-red-800"
    case _ => "bg-gray-100 text-gray-800"
  }

  const KnownStatuses := ["pending", "contacted", "scheduled", "completed", "cancelled"]

  /** The five statuses get five different colours; any other status gets the gray of
      'completed'. */
  lemma StatusColorsDistinct(status: string)
    ensures forall i, j :: 0 <= i < j < |KnownStatuses| ==> StatusColor(KnownStatuses[i]) != StatusColor(KnownStatuses[j])
    ensures status !in KnownStatuses ==> StatusColor(status) == "bg-gray-100 text-gray-800" == StatusColor("completed")
  {
  }

  // ---------------------------------------------------------------------------
  // The component's state

  /** What a GET answered: `success` with `data`, an answer without `success`, or a
      network or JSON error. */
  datatype Fetched<T> = Succeeded(data: T) | Unsuccessful | NetworkError

  const FetchFailedMessage := "Failed to fetch consulting requests"
  const FetchNetworkMessage := "Network error. Please check if the backend server is running."

  class DashboardState {
    var requests: seq<ConsultingRequest>
    var loading: bool
    var error: string
    var selectedRequest: Option<ConsultingRequest>
    var showCommunicationForm: bool
    var filterStatus: string
    var searchTerm: string
    var communicationData: CommunicationDraft

    constructor ()
      ensures requests == [] && loading && error == "" && selectedRequest == None
      ensures !showCommunicationForm && filterStatus == "all" && searchTerm == ""
      ensures communicationData == BlankDraft
    {
      requests := [];
      loading := true;
      error := "";
      selectedRequest := None;
      showCommunicationForm := false;
      filterStatus := "all";
      searchTerm := "";
      communicationData := BlankDraft;
    }

    /** `fetchRequests`: the list on success, an error message otherwise, and loading
        over in every case. */
    method FetchRequests(answer: Fetched<seq<ConsultingRequest>>)
      modifies this
      ensures !loading
      ensures answer.Succeeded? ==> requests == answer.data && error == old(error)
      ensures answer.Unsuccessful? ==> requests == old(requests) && error == FetchFailedMessage
      ensures answer.NetworkError? ==> requests == old(requests) && error == FetchNetworkMessage
      ensures selectedRequest == old(selectedRequest) && communicationData == old(communicationData)
      ensures showCommunicationForm == old(showCommunicationForm)
      ensures filterStatus == old(filterStatus) && searchTerm == old(searchTerm)
    {
      match answer {
        case Succeeded(data) => requests := data;
        case Unsuccessful => error := FetchFailedMessage;
        case NetworkError => error := FetchNetworkMessage;
      }
      loading := false;
    }

    /** `updateRequestStatus`: on a successful PUT, the status of the requests with
        that id; otherwise nothing. The selected request is never touched. */
    method UpdateRequestStatus(id: string, status: string, succeeded: bool)
      modifies this
      ensures succeeded ==> requests == SetStatusWhere(old(requests), id, status)
      ensures !succeeded ==> requests == old(requests)
      ensures selectedRequest == old(selectedRequest) && loading == old(loading) && error == old(error)
      ensures communicationData == old(communicationData) && showCommunicationForm == old(showCommunicationForm)
      ensures filterStatus == old(filterStatus) && searchTerm == old(searchTerm)
    {
      if succeeded {
        requests := SetStatusWhere(requests, id, status);
      }
    }

    /** `addCommunication`. Nothing happens without a selection or with blank content,
        or when the POST does not succeed. After a successful POST the selection is
        refreshed: a successful refresh replaces the selection and the requests with its
        id; the form is then reset, unless the refresh threw. */
    method AddCommunication(posted: bool, refresh: Fetched<ConsultingRequest>)
      modifies this
      ensures old(selectedRequest).None? || Trim(old(communicationData).content) == "" || !posted ==>
        requests == old(requests) && selectedRequest == old(selectedRequest)
        && communicationData == old(communicationData) && showCommunicationForm == old(showCommunicationForm)
      ensures old(selectedRequest).Some? && Trim(old(communicationData).content) != "" && posted ==>
        && (refresh.Succeeded? ==>
              selectedRequest == Some(refresh.data)
              && requests == ReplaceWhere(old(requests), old(selectedRequest).value.id, refresh.data))
        && (!refresh.Succeeded? ==> requests == old(requests) && selectedRequest == old(selectedRequest))
        && (refresh.NetworkError? ==>
              communicationData == old(communicationData) && showCommunicationForm == old(showCommunicationForm))
        && (!refresh.NetworkError? ==> communicationData == BlankDraft && !showCommunicationForm)
      ensures loading == old(loading) && error == old(error)
      ensures filterStatus == old(filterStatus) && searchTerm == old(searchTerm)
    {
      if selectedRequest.None? || Trim(communicationData.content) == "" {
        return;
      }
      if !posted {
        return;
      }
      var selectedId := selectedRequest.value.id;
      match refresh {
        case NetworkError =>
          return;
        case Unsuccessful =>
        case Succeeded(data) =>
          selectedRequest := Some(data);
          requests := ReplaceWhere(requests, selectedId, data);
      }
      communicationData := BlankDraft;
      showCommunicationForm := false;
    }

    /** Clicking a card selects its request. */
    method SelectRequest(r: ConsultingRequest)
      modifies this
      ensures selectedRequest == Some(r)
      ensures requests == old(requests) && communicationData == old(communicationData)
      ensures loading == old(loading) && error == old(error) && showCommunicationForm == old(showCommunicationForm)
      ensures filterStatus == old(filterStatus) && searchTerm == old(searchTerm)
    {
      selectedRequest := Some(r);
    }
  }
}
