# SpaceX launches: launch-list state and network decisions

A model of the state machine and decision logic behind the SpaceXLaunches
app's launch list:

- the view model's paging state;
- the in-flight guard;
- the growing list of fetched launches;
- the success filter and the `dateUtc` sort;
- the controller's event handlers;
- the network manager's request shape, reply classification and image cache;
- the launch records and the launch-fetch error enum.

One Dafny module per source file:

- `Wrappers` (Wrappers.dfy): `Optional` and `Result`.
- `LaunchErrors` (LaunchErrors.dfy): `LaunchError`.
- `Launches` (Launches.dfy): `Launch`, `LaunchDocs`, `LaunchLinks`, `LaunchPatch`.
- `NetworkManager` (NetworkManager.dfy): `ConcreteNetworkManager`.
- `LaunchFilter` (LaunchFilter.dfy): the pure part of `MainViewModel`: the `success == true` filter, the `dateUtc` comparators and the sort.
- `ViewModel` (MainViewModel.dfy): class `MainViewModel`.
- `ViewController` (MainViewController.dfy): class `MainViewController`.
- `Scenarios` (Scenarios.dfy): runs of the screen from a fresh view model, as client methods.

The model works as follows:

- An asynchronous fetch is two steps. The dispatch method raises the guard and returns a `PendingFetch`, which stands for the request in flight and the closure it captured. The completion method is later handed the `Result`.
- The collection-view snapshot is the field `displayed`.
- The `UUID()` each `Launch` draws at construction is a number taken from a counter. The caller passes the first unused one.
- Network replies are abstract (transport error, HTTP status, body), and so are decoders (bytes to an optional value).
- Whether a string parses as a URL is the parameter `validUrl`.

Two behaviours of the code are easy to misread, and the model follows the code:

- Refresh does not clear the fetched launches and does not reset the page counter.
- The page counter moves when a drag dispatches a fetch, not when a fetch succeeds. It never moves on the initial load.

## Model

| member | source | states |
|---|---|---|
| LaunchErrors.FromRawValue | SpaceXLaunches/Utilities/LaunchError.swift:3-8 | reading a string back as a `LaunchError` gives exactly the cases whose raw value is that string |
| LaunchErrors.RawValueLength | SpaceXLaunches/Utilities/LaunchError.swift:4-7 | each of the four messages has its own length (36, 71, 51, 63 characters) |
| LaunchErrors.RawValueInjective | SpaceXLaunches/Utilities/LaunchError.swift:4-7 | the four raw messages are pairwise distinct, so a message identifies its case |
| LaunchErrors.RawValueRoundTrip | SpaceXLaunches/Utilities/LaunchError.swift:3-8 | reading back the raw value of a case gives that case |
| Launches.Construct | SpaceXLaunches/Models/Launches.swift:7-15 | a constructed launch carries the decoded fields and the identity it was given |
| Launches.Stamp | SpaceXLaunches/Models/Launches.swift:3-15 | decoding a page keeps the records' count and order; the i-th launch has the i-th record's fields and identity `firstId + i` |
| Launches.SameRecordDistinctLaunches | SpaceXLaunches/Models/Launches.swift:8-9 | two constructions from the same record are unequal, though their fields agree |
| Launches.RedecodedPageDisjoint | SpaceXLaunches/Models/Launches.swift:8-9 | decoding the same page twice, with the counter advanced, gives two arrays with no launch in common |
| Launches.RedecodedPageAppended | SpaceXLaunches/Models/Launches.swift:8-9 | two decodings of one page appended hold every launch twice, one page length apart, with equal fields and as unequal values |
| Launches.StampedLaunchesDistinct | SpaceXLaunches/Models/Launches.swift:8-9 | no two positions of one decoded page hold equal launches |
| Launches.PatchImageUrl | SpaceXLaunches/Models/Launches.swift:18-25 | the patch image URL is present exactly when both `links.patch` and `patch.small` are, and is then `patch.small` |
| NetworkManager.Member | SpaceXLaunches/Managers/NetworkManager.swift:40-44 | a JSON member lookup returns the value of the first pair with that key, or there is no such pair |
| NetworkManager.LaunchesRequest | SpaceXLaunches/Managers/NetworkManager.swift:40-50 | the launches query is a POST to `baseURL + "launches/query"` with `Content-Type: application/json`, whose body's `options.page` is the page asked for |
| NetworkManager.LaunchesRequestInjective | SpaceXLaunches/Managers/NetworkManager.swift:40-50 | different pages give different requests |
| NetworkManager.GetRequest | SpaceXLaunches/Managers/NetworkManager.swift:18 | a data task made from a URL is a GET of that URL with no body |
| NetworkManager.ClassifyLaunchReply | SpaceXLaunches/Managers/NetworkManager.swift:52-75 | a transport error is `.invalidResponse`; otherwise a missing or non-200 status is `.unableToComplete`; otherwise a missing or undecodable body is `.invalidData`; success exactly when all four tests pass, carrying the decoded page |
| NetworkManager.FetchLaunchDetails | SpaceXLaunches/Managers/NetworkManager.swift:34-77 | the completion runs exactly once; with an unbuildable URL no request is sent and the result is `.invalidUrl`; otherwise the request is the page's query and the result is the reply's classification |
| NetworkManager.LaunchFetchSuccessCarriesPage | SpaceXLaunches/Managers/NetworkManager.swift:68-72 | a successful launch fetch always carries a page |
| NetworkManager.FetchCompanyInfo | SpaceXLaunches/Managers/NetworkManager.swift:15-32 | the completion runs at most once: exactly when the URL builds and the reply passes every test, with the decoded value; a GET is sent exactly when the URL builds |
| NetworkManager.CompanyAndLaunchAgree | SpaceXLaunches/Managers/NetworkManager.swift:15-32 | the company fetch delivers on a reply exactly when the launch fetch would classify it as success |
| NetworkManager.ConcreteNetworkManager.constructor | SpaceXLaunches/Managers/NetworkManager.swift:13 | a new network manager starts with an empty image cache |
| NetworkManager.ConcreteNetworkManager.SetAndCacheLaunchImage | SpaceXLaunches/Managers/NetworkManager.swift:79-89 | a cache hit answers with the cached image and starts no task; on a miss a GET starts only if the string parses as a URL |
| NetworkManager.ConcreteNetworkManager.ImageTaskCompleted | SpaceXLaunches/Managers/NetworkManager.swift:89-97 | an image is delivered exactly when the reply passes every test; it is then stored under its URL string before delivery; on any failure the cache is unchanged |
| NetworkManager.ConcreteNetworkManager.Evict | SpaceXLaunches/Managers/NetworkManager.swift:13 | the cache may drop an entry on its own, and then holds everything else it held |
| LaunchFilter.DateLessIrreflexive | SpaceXLaunches/ViewModels/MainViewModel.swift:159 | no date string is before itself |
| LaunchFilter.DateLessTransitive | SpaceXLaunches/ViewModels/MainViewModel.swift:159 | the string order on dates is transitive |
| LaunchFilter.DateLessAtFirstDifference | SpaceXLaunches/ViewModels/MainViewModel.swift:159 | strings that agree up to a position and differ there are ordered by the characters at it |
| LaunchFilter.DateLessOfPrefix | SpaceXLaunches/ViewModels/MainViewModel.swift:159 | a proper prefix comes before the longer string |
| LaunchFilter.DateLessIsLexicographicOnly | SpaceXLaunches/ViewModels/MainViewModel.swift:159 | the string order holds only for a proper prefix or at a first difference |
| LaunchFilter.DateLessIsLexicographic | SpaceXLaunches/ViewModels/MainViewModel.swift:159 | the string order is exactly lexicographic order: a proper prefix, or the smaller character at the first difference |
| LaunchFilter.DateLessTrichotomy | SpaceXLaunches/ViewModels/MainViewModel.swift:159-161 | any two date strings are equal or ordered one way, and never both ways |
| LaunchFilter.SuccessfulLaunches | SpaceXLaunches/ViewModels/MainViewModel.swift:155 | the filtered list is no longer than the input and holds exactly the input's launches whose `success` is `true` |
| LaunchFilter.SuccessfulLaunchesAppend | SpaceXLaunches/ViewModels/MainViewModel.swift:155 | filtering an appended list is appending the filtered parts, so the filter keeps the input's order |
| LaunchFilter.SuccessfulLaunchesCount | SpaceXLaunches/ViewModels/MainViewModel.swift:155 | each successful launch is kept as many times as it occurs; `false` and absent `success` are dropped |
| LaunchFilter.SuccessfulLaunchesSubMultiset | SpaceXLaunches/ViewModels/MainViewModel.swift:155 | the filtered list is drawn from the input |
| LaunchFilter.SuccessfulLaunchesKeepsSuccessful | SpaceXLaunches/ViewModels/MainViewModel.swift:155 | a list of successful launches is kept whole |
| LaunchFilter.InOrderTotal | SpaceXLaunches/ViewModels/MainViewModel.swift:159-161 | any two launches are in order one way or the other, in either direction |
| LaunchFilter.InOrderTransitive | SpaceXLaunches/ViewModels/MainViewModel.swift:159-161 | the date order of either direction is transitive |
| LaunchFilter.InOrderBothWays | SpaceXLaunches/ViewModels/MainViewModel.swift:159-161 | launches in order both ways have the same date |
| LaunchFilter.Insert | SpaceXLaunches/ViewModels/MainViewModel.swift:159-161 | inserting adds exactly one element |
| LaunchFilter.SortByDate | SpaceXLaunches/ViewModels/MainViewModel.swift:159-161 | the sort is a permutation of its input |
| LaunchFilter.SortedCons | SpaceXLaunches/ViewModels/MainViewModel.swift:159-161 | a launch in order before a sorted list starts a sorted list |
| LaunchFilter.InsertSorted | SpaceXLaunches/ViewModels/MainViewModel.swift:159-161 | inserting into a sorted list keeps it sorted |
| LaunchFilter.SortByDateSorted | SpaceXLaunches/ViewModels/MainViewModel.swift:159-161 | the sort's result is sorted by date in the chosen direction |
| LaunchFilter.SortByDateOfSorted | SpaceXLaunches/ViewModels/MainViewModel.swift:159-161 | sorting an already sorted list leaves it as it is |
| LaunchFilter.SortedTail | SpaceXLaunches/ViewModels/MainViewModel.swift:159-161 | the tail of a sorted list is sorted |
| LaunchFilter.SortedPermutationsSameHead | SpaceXLaunches/ViewModels/MainViewModel.swift:159-161 | when dates identify launches, two sorted rearrangements of one list start with the same launch |
| LaunchFilter.SortedPermutationUnique | SpaceXLaunches/ViewModels/MainViewModel.swift:159-161 | when dates identify launches, there is only one sorted rearrangement, so any sort gives the same display |
| LaunchFilter.SortedPairUnique | SpaceXLaunches/ViewModels/MainViewModel.swift:159-161 | two launches with different dates have exactly one sorted arrangement |
| LaunchFilter.Reverse | SpaceXLaunches/ViewModels/MainViewModel.swift:161 | reversal keeps the length and mirrors the positions |
| LaunchFilter.ReverseMultiset | SpaceXLaunches/ViewModels/MainViewModel.swift:161 | reversal is a permutation |
| LaunchFilter.ReverseOfAscendingDescends | SpaceXLaunches/ViewModels/MainViewModel.swift:159-161 | an ascending list read backwards is descending |
| LaunchFilter.DescendingIsReversedAscending | SpaceXLaunches/ViewModels/MainViewModel.swift:159-161 | when dates identify launches, the descending sort is the ascending sort reversed |
| LaunchFilter.FilteredProjectionMembers | SpaceXLaunches/ViewModels/MainViewModel.swift:155-161 | a launch is shown by a filter exactly when it was fetched and succeeded |
| LaunchFilter.FilteredProjectionDrawnFrom | SpaceXLaunches/ViewModels/MainViewModel.swift:155-161 | the filtered display is sorted, is a permutation of the successful launches, and is drawn from the fetched ones |
| LaunchFilter.FilteredProjectionIdempotent | SpaceXLaunches/ViewModels/MainViewModel.swift:155-161 | filtering the filtered display again gives the same display |
| LaunchFilter.AscendingThenDescendingReverses | SpaceXLaunches/ViewModels/MainViewModel.swift:155-161 | when dates identify launches, descending after ascending shows the ascending list reversed |
| ViewModel.DrawnFromNoLonger | SpaceXLaunches/ViewControllers/MainViewController.swift:134 | a list drawn from another is no longer than it |
| ViewModel.MainViewModel.constructor | SpaceXLaunches/ViewModels/MainViewModel.swift:32-36 | a fresh view model is on page 1, neither loading nor filtering, with nothing fetched or displayed |
| ViewModel.MainViewModel.UpdateCollectionViewData | SpaceXLaunches/ViewModels/MainViewModel.swift:80-86 | the display becomes the given list |
| ViewModel.MainViewModel.FetchLaunchDetails | SpaceXLaunches/ViewModels/MainViewModel.swift:101-103 | dispatching raises the guard, captures the page, filter and completion, and leaves the `page` field alone |
| ViewModel.MainViewModel.FilterLaunchDetails | SpaceXLaunches/ViewModels/MainViewModel.swift:148-163 | with no filter type nothing changes; with one, filtering is on, `filteredLaunchDetails` is the ordered successful subsequence, and the display is a sorted permutation of it; launches, page and guard are untouched |
| ViewModel.MainViewModel.AppendPage | SpaceXLaunches/ViewModels/MainViewModel.swift:108-114 | the page's launches are appended in order; the display becomes the whole list when not filtering, stays as it was when filtering with no filter type, and is re-filtered with one; page and guard are untouched |
| ViewModel.MainViewModel.FetchCompleted | SpaceXLaunches/ViewModels/MainViewModel.swift:103-119 | a failure passes the raw message once, lowers the guard and changes nothing else; a success without a page changes nothing, so the guard stays up; a page is appended in order and lowers the guard; the display then becomes the whole list when not filtering, is re-filtered with a filter type, and is untouched with none; the page counter never moves |
| ViewController.MainViewController.constructor | SpaceXLaunches/ViewControllers/MainViewController.swift:54-57 | a new screen holds its view model and has shown no alert |
| ViewController.MainViewController.ViewDidLoad | SpaceXLaunches/ViewControllers/MainViewController.swift:63-78 | the initial load first shows the launches fetched so far (creating the data source applies that snapshot), then fetches the current page with no filter and an alerting completion, and does not move the counter |
| ViewController.MainViewController.RefreshCollectionView | SpaceXLaunches/ViewControllers/MainViewController.swift:89-95 | refresh turns filtering off and fetches the current page; it ignores the guard, keeps the counter, and clears neither the launches nor the display |
| ViewController.MainViewController.FilterButtonTapped | SpaceXLaunches/ViewControllers/MainViewController.swift:97-114 | "Ascending" and "Descending" filter and sort that way; "Cancel" changes nothing |
| ViewController.MainViewController.ScrollViewDidEndDragging | SpaceXLaunches/ViewControllers/MainViewController.swift:119-131 | away from the bottom, or while loading, nothing happens; otherwise the current page is fetched with an error-ignoring completion and the counter moves on at once |
| ViewController.MainViewController.LaunchFetchCompleted | SpaceXLaunches/ViewControllers/MainViewController.swift:67-69 | an alert is added exactly when a fetch from the initial load or refresh fails, carrying the error's raw message; the view model's whole new state is the one its completion gives: a failure changes only the guard, a success without a page changes nothing, and a page is appended with the display updated by the filter state |
| ViewController.MainViewController.DidSelectItemAt | SpaceXLaunches/ViewControllers/MainViewController.swift:133-141 | selecting a displayed row opens the Wikipedia link, if present and parseable, of the launch at that row of `launchDetails`, and that row always exists |
| ViewController.MainViewController.ViewDidLoadAdvancingPage | SpaceXLaunches/ViewControllers/MainViewController.swift:63-78 | the initial load as evidently intended: it shows the launches fetched so far, fetches the current page and moves the counter on |
| ViewController.MainViewController.DidSelectDisplayedItemAt | SpaceXLaunches/ViewControllers/MainViewController.swift:133-141 | selection as evidently intended: the link of the launch shown at that row |
| Scenarios.LoadedScreen | SpaceXLaunches/ViewControllers/MainViewController.swift:63-70 | a fresh screen whose initial load brought a page: page 1, guard down, not filtering, the page's launches fetched and displayed, no alert |
| Scenarios.InitialLoadThenScroll | SpaceXLaunches/ViewControllers/MainViewController.swift:67-129 | the initial load and the first drag both request page 1; when both are answered with the same records, every launch is in the list twice, with equal fields but as unequal values |
| Scenarios.InitialLoadThenScrollAdvancing | SpaceXLaunches/ViewControllers/MainViewController.swift:127-129 | with the corrected initial load, the first drag requests page 2 |
| Scenarios.NilPageBlocksPaging | SpaceXLaunches/ViewModels/MainViewModel.swift:107 | after a success without a page the guard stays up, so the next drag fetches nothing and the counter stays at 1 |
| Scenarios.FailedFirstPage | SpaceXLaunches/ViewModels/MainViewModel.swift:115-118 | a failed first page leaves the list empty, lowers the guard, keeps page 1, and alerts once with the message |
| Scenarios.FailedScrollPageIsSilent | SpaceXLaunches/ViewControllers/MainViewController.swift:127-128 | the failure of a page requested by a drag is never shown |
| Scenarios.TwoPagesThenFilter | SpaceXLaunches/ViewModels/MainViewModel.swift:108-163 | two pages are kept in fetch order, and each filter shows the successful launches sorted its way |
| Scenarios.SuccessfulOfThree | SpaceXLaunches/ViewModels/MainViewModel.swift:155 | of a successful, a failed and a successful launch, the success filter keeps the first and the last, in order |
| Scenarios.TwoPagesThenFilterOutcome | SpaceXLaunches/ViewModels/MainViewModel.swift:155-161 | with a successful, a failed and an earlier successful launch, ascending shows the earlier one first and descending the later one first |
| Scenarios.FilterThenScrollPage | SpaceXLaunches/ViewModels/MainViewModel.swift:110-111 | while filtering, a page from a drag is appended but the display is not refreshed |
| Scenarios.SelectWhileFiltering | SpaceXLaunches/ViewControllers/MainViewController.swift:134 | while filtering, selecting the first shown row opens another launch's article |
| Scenarios.OverlappingImageFetches | SpaceXLaunches/Managers/NetworkManager.swift:79-97 | two requests for one URL before either finishes both start a task; both deliver, the cache holds one entry, and a later request hits it |

## Left out

- UIKit rendering and layout: cells, header view, layout manager, constraints and alert presentation. An alert is recorded as its message in `alerts`.
- The diffable data source: the snapshot is the list `displayed`, and animation is not modelled.
- Date formatting (`formatLaunchDate`) and time distance (`determineTimeDistanceInLaunch`). They depend on `DateFormatter`, the wall clock and floating point.
- The company info view-model side: `fetchCompanyInfo`'s `NumberFormatter` valuation and the `CompanyInfo` struct. The company value is a type parameter.
- ViewController.MainViewController.RefreshCollectionView: refresh also re-fetches the company info (`viewModel.fetchCompanyInfo`, whose completion is empty). The model leaves that call out, since it changes only the formatted valuation, which is not modelled.
- Transport, JSON and image decoding are abstract inputs. `URL(string:)` is the parameter `validUrl`, and `JSONSerialization` failure of the request body is not modelled.
- Concurrency and lifetime: `DispatchQueue.main.async` and the `[weak self]` guards. Every completion is assumed to run on a live object, and completions run one at a time.
- Scroll geometry: the comparison `offsetY > contentHeight - height` is the boolean `nearBottom`.
- Presenting the Safari view: selection returns the link that would be opened.
- `dateUnix` is a `real`, not a 64-bit float, and no operation of the core computes with it.
- LaunchFilter.DateLess: Swift's `String <` compares Unicode scalar-wise after canonical equivalence. The model compares characters lexicographically, which agrees for the ASCII date strings the API sends.
- LaunchFilter.SortByDate: it is an insertion sort standing for Swift's `sorted(by:)`. The view-model contracts promise only "sorted and a permutation", which is what Swift promises, since its sort is not stable.
- Launches.Stamp: `UUID()` is a counter of fresh numbers. Global uniqueness across separately passed counters is the caller's obligation.
- NetworkManager.ConcreteNetworkManager.SetAndCacheLaunchImage: NSCache may miss after a store. This is the separate `Evict` step, so no "always hits after store" is claimed.

## Findings

| source | as written | input that shows it | evidently intended | confidence | as-written member | corrected member |
|---|---|---|---|---|---|---|
| SpaceXLaunches/ViewControllers/MainViewController.swift:67-129 | the initial load fetches `page` without advancing it; the first drag fetches the same page, then advances | a fresh screen: load succeeds, then one drag to the bottom — both requests ask for page 1; answered with the same records, each launch is in the list twice, with equal fields but as unequal values | each page requested once: the initial load advances the counter like a drag does | not executed | Scenarios.InitialLoadThenScroll | ViewController.MainViewController.ViewDidLoadAdvancingPage, Scenarios.InitialLoadThenScrollAdvancing |
| SpaceXLaunches/ViewControllers/MainViewController.swift:134 | selection reads `launchDetails[row]`, the unfiltered list | launches `[failed, succeeded]` fetched, "Ascending" tapped, row 0 selected: the screen shows `succeeded` but `failed`'s article opens | selection reads the displayed list | not executed | Scenarios.SelectWhileFiltering | ViewController.MainViewController.DidSelectDisplayedItemAt |
