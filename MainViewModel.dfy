/**
 * The launch-list view model: the pages fetched so far, the page counter the
 * controller advances, the in-flight guard, the filter state, and the list
 * last handed to the collection view (`displayed`).
 *
 * A fetch is asynchronous, so it is two steps: `FetchLaunchDetails` raises the
 * guard and returns a `PendingFetch` standing for the request in flight and
 * the completion closure it captured; `FetchCompleted` is the closure the
 * network manager later calls with the result.
 */
module ViewModel {
  import opened Wrappers
  import opened LaunchErrors
  import opened Launches
  import opened LaunchFilter

  /** What the caller's completion closure does with an error message. */
  datatype Completion = PresentErrorAlert | IgnoreError

  /** A page request in flight, with the arguments the view model captured for its completion. */
  datatype PendingFetch = PendingFetch(page: int, filterType: Option<FilterType>, completion: Completion)

  /** What the network manager hands back for one page. */
  type FetchResult = Result<Option<LaunchDocs>, LaunchError>

  /** A list drawn from another is no longer than it. */
  lemma DrawnFromNoLonger(sub: seq<Launch>, all: seq<Launch>)
    requires multiset(sub) <= multiset(all)
    ensures |sub| <= |all|
  {
    var rest := multiset(all) - multiset(sub);
    assert multiset(all) == multiset(sub) + rest;
    assert |multiset(all)| == |multiset(sub)| + |rest|;
  }

  class MainViewModel {
    var page: int
    var isLoadingMoreLaunches: bool
    var isFiltering: bool
    var launchDetails: seq<Launch>
    var filteredLaunchDetails: seq<Launch>
    /** The items of the last snapshot applied to the data source. */
    var displayed: seq<Launch>

    /**
     * The page counter never drops below its start, and everything filtered or
     * displayed is drawn from the launches fetched so far.
     */
    ghost predicate Valid()
      reads this
    {
      && page >= 1
      && multiset(filteredLaunchDetails) <= multiset(launchDetails)
      && multiset(displayed) <= multiset(launchDetails)
    }

    constructor ()
      ensures Valid()
      ensures page == 1 && !isLoadingMoreLaunches && !isFiltering
      ensures launchDetails == [] && filteredLaunchDetails == [] && displayed == []
    {
      page := 1;
      isLoadingMoreLaunches := false;
      isFiltering := false;
      launchDetails := [];
      filteredLaunchDetails := [];
      displayed := [];
    }

    /** Applying a snapshot holding `launches` to the collection view. */
    method UpdateCollectionViewData(launches: seq<Launch>)
      modifies this`displayed
      ensures displayed == launches
    {
      displayed := launches;
    }

    /**
     * Dispatching the fetch of `page`: the guard goes up before the request
     * leaves; `page` is only a parameter and the field of that name is not
     * touched.
     */
    method FetchLaunchDetails(page: int, filterType: Option<FilterType>, completion: Completion)
      returns (pending: PendingFetch)
      modifies this`isLoadingMoreLaunches
      ensures isLoadingMoreLaunches
      ensures pending == PendingFetch(page, filterType, completion)
      ensures this.page == old(this.page)
    {
      isLoadingMoreLaunches := true;
      pending := PendingFetch(page, filterType, completion);
    }

    /**
     * Choosing a filter. Without a filter type nothing happens at all; with
     * one, the view model records that it is filtering, keeps the successful
     * launches in their fetched order, and displays them sorted by date in the
     * chosen direction (as a sorted rearrangement: equal dates may come in any
     * order).
     */
    method FilterLaunchDetails(filterType: Option<FilterType>)
      requires Valid()
      modifies this
      ensures Valid()
      ensures filterType.None? ==> unchanged(this)
      ensures filterType.Some? ==>
        && isFiltering
        && filteredLaunchDetails == SuccessfulLaunches(launchDetails)
        && SortedBy(filterType.value, displayed)
        && multiset(displayed) == multiset(filteredLaunchDetails)
      ensures launchDetails == old(launchDetails) && page == old(page)
      ensures isLoadingMoreLaunches == old(isLoadingMoreLaunches)
    {
      if filterType.Some? {
        var dir := filterType.value;
        FilteredProjectionDrawnFrom(dir, launchDetails);
        isFiltering := true;
        filteredLaunchDetails := SuccessfulLaunches(launchDetails);
        UpdateCollectionViewData(FilteredProjection(dir, launchDetails));
      }
    }

    /**
     * A page arriving: its launches are appended, in order, to everything
     * fetched so far; the display then shows the whole list when not
     * filtering, and when filtering the filter is re-run with `filterType`.
     */
    method AppendPage(launches: LaunchDocs, filterType: Option<FilterType>)
      requires Valid()
      modifies this
      ensures Valid()
      ensures page == old(page) && isLoadingMoreLaunches == old(isLoadingMoreLaunches)
      ensures launchDetails == old(launchDetails) + launches.docs
      ensures !old(isFiltering) ==>
        && displayed == launchDetails
        && !isFiltering && filteredLaunchDetails == old(filteredLaunchDetails)
      ensures old(isFiltering) && filterType.None? ==>
        && isFiltering
        && filteredLaunchDetails == old(filteredLaunchDetails) && displayed == old(displayed)
      ensures old(isFiltering) && filterType.Some? ==>
        && isFiltering
        && filteredLaunchDetails == SuccessfulLaunches(launchDetails)
        && SortedBy(filterType.value, displayed)
        && multiset(displayed) == multiset(filteredLaunchDetails)
    {
      assert multiset(launchDetails + launches.docs) == multiset(launchDetails) + multiset(launches.docs);
      launchDetails := launchDetails + launches.docs;
      if isFiltering {
        FilterLaunchDetails(filterType);
      } else {
        UpdateCollectionViewData(launchDetails);
      }
    }

    /**
     * The completion of a page fetch.
     * - A success without a page returns at once: nothing changes and the
     *   guard stays up.
     * - A success with a page appends its launches, in order, to everything
     *   fetched so far; the display is then refreshed with the whole list
     *   when not filtering, and when filtering the filter is re-run with the
     *   fetch's filter type, which changes nothing when that is `nil`.
     * - A failure leaves the launches and the filter state alone and passes
     *   the error's message to the completion closure, once.
     * The guard comes down in the last two cases; the page counter never moves.
     */
    method FetchCompleted(pending: PendingFetch, result: FetchResult) returns (message: Option<string>)
      requires Valid()
      modifies this
      ensures Valid()
      ensures page == old(page)
      ensures result.Failure? <==> message.Some?
      ensures result.Failure? ==>
        && message == Some(RawValue(result.error))
        && !isLoadingMoreLaunches
        && launchDetails == old(launchDetails) && isFiltering == old(isFiltering)
        && filteredLaunchDetails == old(filteredLaunchDetails) && displayed == old(displayed)
      ensures result == Success(None) ==> unchanged(this)
      ensures result.Success? && result.value.Some? ==>
        && !isLoadingMoreLaunches
        && launchDetails == old(launchDetails) + result.value.value.docs
        && (!old(isFiltering) ==>
              && displayed == launchDetails
              && !isFiltering && filteredLaunchDetails == old(filteredLaunchDetails))
        && (old(isFiltering) && pending.filterType.None? ==>
              && isFiltering
              && filteredLaunchDetails == old(filteredLaunchDetails) && displayed == old(displayed))
        && (old(isFiltering) && pending.filterType.Some? ==>
              && isFiltering
              && filteredLaunchDetails == SuccessfulLaunches(launchDetails)
              && SortedBy(pending.filterType.value, displayed)
              && multiset(displayed) == multiset(filteredLaunchDetails))
    {
      match result {
        case Success(None) =>
          message := None;
        case Success(Some(launches)) =>
          AppendPage(launches, pending.filterType);
          message := None;
          isLoadingMoreLaunches := false;
        case Failure(error) =>
          message := Some(RawValue(error));
          isLoadingMoreLaunches := false;
      }
    }
  }
}
