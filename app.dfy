/** The dashboard component: its `measurements` window, the `isLoading`
    and `error` flags, and the start-up sequence that seeds the window and
    opens the stream of new rows. */
module App {
  import opened Measurements
  import opened Window

  /** What the backend did when asked for the initial batch. */
  datatype FetchOutcome = Fetched(batch: seq<Measurement>) | FetchFailed

  /** The rows asked for at start-up; the backend returns at most this many. */
  const InitialBatchSize: nat := 50

  /** The message shown when start-up fails. */
  const LoadFailedMessage: string :=
    "Failed to load distance measurements. Please check your connection and configuration."

  class AppComponent {
    const measurements: MeasurementWindow
    var isLoading: bool
    var error: Option<string>
    /** Whether the stream of new rows is open (the unsubscribe handle is set). */
    var subscribed: bool

    constructor ()
      ensures fresh(measurements) && measurements.items == []
      ensures isLoading && error == None && !subscribed
    {
      measurements := new MeasurementWindow();
      isLoading := true;
      error := None;
      subscribed := false;
    }

    /** `ngOnInit`. The fetch of the first `InitialBatchSize` rows and the
        opening of the stream are the backend's: their outcomes come in as
        parameters (`listenFails` is the stream set-up throwing). Whatever
        happens, loading ends; a failure leaves the message in `error`. */
    method NgOnInit(fetched: FetchOutcome, listenFails: bool)
      modifies this, measurements
      ensures !isLoading
      ensures error.Some? <==> (fetched.FetchFailed? || listenFails)
      ensures error.Some? ==> error.value == LoadFailedMessage
      ensures subscribed == if fetched.Fetched? && !listenFails then true else old(subscribed)
      ensures fetched.Fetched? ==> measurements.items == fetched.batch
      ensures fetched.FetchFailed? ==> measurements.items == old(measurements.items)
      ensures fetched.Fetched? && |fetched.batch| <= InitialBatchSize ==>
        |measurements.items| <= MaxMeasurements
    {
      error := None;
      isLoading := true;
      match fetched {
        case FetchFailed =>
          error := Some(LoadFailedMessage);
        case Fetched(batch) =>
          measurements.Seed(batch);
          if listenFails {
            error := Some(LoadFailedMessage);
          } else {
            subscribed := true;
          }
      }
      isLoading := false;
    }

    /** The listener passed to the stream: every new row goes through the
        window's update closure. */
    method OnNewMeasurement(m: Measurement)
      modifies measurements
      ensures measurements.items == Pushed(old(measurements.items), m)
      ensures measurements.Latest() == Some(m)
    {
      measurements.Push(m);
    }
  }
}
