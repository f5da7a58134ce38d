/**
 * The launch-list screen's event handlers: the initial load, the refresh
 * button, the filter action sheet, the end of a drag (with "the drag ended
 * near the bottom" as a boolean), the completion closures of the fetches it
 * starts, and the selection of a row.
 */
module ViewController {
  import opened Wrappers
  import opened LaunchErrors
  import opened Launches
  import opened LaunchFilter
  import opened ViewModel

  /** The buttons of the filter action sheet. */
  datatype FilterAction = Ascending | Descending | Cancel

  /** The filter type each button passes to the view model. */
  function FilterTypeOf(action: FilterAction): (t: Option<FilterType>)
  {
    match action
    case Ascending => Some(Asc)
    case Descending => Some(Desc)
    case Cancel => None
  }

  class MainViewController {
    const viewModel: MainViewModel
    /** The messages of the error alerts presented so far. */
    var alerts: seq<string>

    ghost predicate Valid()
      reads this, viewModel
    {
      viewModel.Valid()
    }

    constructor (viewModel: MainViewModel)
      requires viewModel.Valid()
      ensures this.viewModel == viewModel && alerts == [] && Valid()
    {
      this.viewModel := viewModel;
      alerts := [];
    }

    /**
     * The initial load. Configuring the view creates the data source, which
     * applies a first snapshot of the launches fetched so far; then the view
     * model's current page is fetched, with no filter, and the counter stays
     * where it is.
     */
    method ViewDidLoad() returns (pending: PendingFetch)
      requires Valid()
      modifies viewModel`displayed, viewModel`isLoadingMoreLaunches
      ensures Valid()
      ensures viewModel.displayed == viewModel.launchDetails
      ensures viewModel.isLoadingMoreLaunches
      ensures pending == PendingFetch(viewModel.page, None, PresentErrorAlert)
      ensures viewModel.page == old(viewModel.page)
    {
      viewModel.UpdateCollectionViewData(viewModel.launchDetails);
      pending := viewModel.FetchLaunchDetails(viewModel.page, None, PresentErrorAlert);
    }

    /**
     * Refresh turns filtering off and fetches the current page again. It does
     * not consult the in-flight guard, does not move the counter and does not
     * clear the launches already fetched, nor the display.
     */
    method RefreshCollectionView() returns (pending: PendingFetch)
      requires Valid()
      modifies viewModel`isFiltering, viewModel`isLoadingMoreLaunches
      ensures Valid()
      ensures !viewModel.isFiltering && viewModel.isLoadingMoreLaunches
      ensures pending == PendingFetch(viewModel.page, None, PresentErrorAlert)
      ensures viewModel.page == old(viewModel.page)
      ensures viewModel.launchDetails == old(viewModel.launchDetails)
      ensures viewModel.displayed == old(viewModel.displayed)
    {
      viewModel.isFiltering := false;
      pending := viewModel.FetchLaunchDetails(viewModel.page, None, PresentErrorAlert);
    }

    /** "Ascending" and "Descending" run the filter in that direction; "Cancel" does nothing. */
    method FilterButtonTapped(action: FilterAction)
      requires Valid()
      modifies viewModel
      ensures Valid()
      ensures action == Cancel ==> unchanged(viewModel)
      ensures action != Cancel ==>
        && viewModel.isFiltering
        && viewModel.filteredLaunchDetails == SuccessfulLaunches(viewModel.launchDetails)
        && multiset(viewModel.displayed) == multiset(viewModel.filteredLaunchDetails)
      ensures action == Ascending ==> SortedBy(Asc, viewModel.displayed)
      ensures action == Descending ==> SortedBy(Desc, viewModel.displayed)
      ensures viewModel.launchDetails == old(viewModel.launchDetails) && viewModel.page == old(viewModel.page)
      ensures viewModel.isLoadingMoreLaunches == old(viewModel.isLoadingMoreLaunches)
    {
      viewModel.FilterLaunchDetails(FilterTypeOf(action));
    }

    /**
     * The end of a drag. Away from the bottom, or while a fetch is in flight,
     * nothing happens. Otherwise the current page is fetched with no filter
     * and a completion that ignores errors, and the counter moves on at once,
     * whatever that fetch will bring.
     */
    method ScrollViewDidEndDragging(nearBottom: bool) returns (pending: Option<PendingFetch>)
      requires Valid()
      modifies viewModel`page, viewModel`isLoadingMoreLaunches
      ensures Valid()
      ensures !nearBottom || old(viewModel.isLoadingMoreLaunches) ==> pending.None? && unchanged(viewModel)
      ensures nearBottom && !old(viewModel.isLoadingMoreLaunches) ==>
        && pending == Some(PendingFetch(old(viewModel.page), None, IgnoreError))
        && viewModel.page == old(viewModel.page) + 1
        && viewModel.isLoadingMoreLaunches
    {
      if !nearBottom || viewModel.isLoadingMoreLaunches {
        return None;
      }
      var p := viewModel.FetchLaunchDetails(viewModel.page, None, IgnoreError);
      viewModel.page := viewModel.page + 1;
      pending := Some(p);
    }

    /**
     * A page fetch finishing: the view model applies the result, and the
     * closure of the initial load or of a refresh presents the error message,
     * while the closure of a scroll drops it.
     */
    method LaunchFetchCompleted(pending: PendingFetch, result: FetchResult)
      requires Valid()
      modifies this, viewModel
      ensures Valid()
      ensures alerts == old(alerts) +
        (if result.Failure? && pending.completion == PresentErrorAlert then [RawValue(result.error)] else [])
      ensures viewModel.page == old(viewModel.page)
      ensures result.Failure? ==>
        && !viewModel.isLoadingMoreLaunches
        && viewModel.launchDetails == old(viewModel.launchDetails)
        && viewModel.isFiltering == old(viewModel.isFiltering)
        && viewModel.filteredLaunchDetails == old(viewModel.filteredLaunchDetails)
        && viewModel.displayed == old(viewModel.displayed)
      ensures result == Success(None) ==> unchanged(viewModel)
      ensures result.Success? && result.value.Some? ==>
        && !viewModel.isLoadingMoreLaunches
        && viewModel.launchDetails == old(viewModel.launchDetails) + result.value.value.docs
        && (!old(viewModel.isFiltering) ==>
              && viewModel.displayed == viewModel.launchDetails
              && !viewModel.isFiltering
              && viewModel.filteredLaunchDetails == old(viewModel.filteredLaunchDetails))
        && (old(viewModel.isFiltering) && pending.filterType.None? ==>
              && viewModel.isFiltering
              && viewModel.filteredLaunchDetails == old(viewModel.filteredLaunchDetails)
              && viewModel.displayed == old(viewModel.displayed))
        && (old(viewModel.isFiltering) && pending.filterType.Some? ==>
              && viewModel.isFiltering
              && viewModel.filteredLaunchDetails == SuccessfulLaunches(viewModel.launchDetails)
              && SortedBy(pending.filterType.value, viewModel.displayed)
              && multiset(viewModel.displayed) == multiset(viewModel.filteredLaunchDetails))
    {
      var message := viewModel.FetchCompleted(pending, result);
      if message.Some? && pending.completion == PresentErrorAlert {
        alerts := alerts + [message.value];
      }
    }

    /**
     * Selecting a row opens the Wikipedia link of the launch at that row of
     * `launchDetails`, which is not the list on screen while filtering. The
     * row always exists there, since the display never holds more launches
     * than have been fetched.
     */
    method DidSelectItemAt(row: nat, validUrl: string -> bool) returns (link: Option<string>)
      requires Valid() && row < |viewModel.displayed|
      ensures row < |viewModel.launchDetails|
      ensures var wiki := viewModel.launchDetails[row].links.wikipedia;
        link == if wiki.Some? && validUrl(wiki.value) then wiki else None
    {
      DrawnFromNoLonger(viewModel.displayed, viewModel.launchDetails);
      var wiki := viewModel.launchDetails[row].links.wikipedia;
      if wiki.None? || !validUrl(wiki.value) {
        return None;
      }
      link := wiki;
    }
  
    /**
     * The initial load as evidently intended: like the end of a drag, it moves
     * the counter on past the page it requested, so that the next drag asks
     * for the following page.
     */
    method ViewDidLoadAdvancingPage() returns (pending: PendingFetch)
      requires Valid()
      modifies viewModel`displayed, viewModel`page, viewModel`isLoadingMoreLaunches
      ensures Valid()
      ensures viewModel.displayed == viewModel.launchDetails
      ensures viewModel.isLoadingMoreLaunches
      ensures pending == PendingFetch(old(viewModel.page), None, PresentErrorAlert)
      ensures viewModel.page == old(viewModel.page) + 1
    {
      viewModel.UpdateCollectionViewData(viewModel.launchDetails);
      pending := viewModel.FetchLaunchDetails(viewModel.page, None, PresentErrorAlert);
      viewModel.page := viewModel.page + 1;
    }

    /** Selecting a row as evidently intended: the link of the launch shown at that row. */
    method DidSelectDisplayedItemAt(row: nat, validUrl: string -> bool) returns (link: Option<string>)
      requires Valid() && row < |viewModel.displayed|
      ensures var wiki := viewModel.displayed[row].links.wikipedia;
        link == if wiki.Some? && validUrl(wiki.value) then wiki else None
    {
      var wiki := viewModel.displayed[row].links.wikipedia;
      if wiki.None? || !validUrl(wiki.value) {
        return None;
      }
      link := wiki;
    }
  }
}
