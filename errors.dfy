/** The failure kinds raised by the library (each corresponds to one
    `runtime_error`/`invalid_argument` message of the C++ code) and the
    result wrappers that carry them.  A call that ends in `terminate()` in the
    source is a `Fail`/`Err` here. */
module Errors {

  datatype Error =
    | ModeNotSet            // "Please set pin numbering mode ..."
    | InvalidMode           // "Pin numbering mode must be GPIO::BOARD, GPIO::BCM, or GPIO::SOC"
    | DifferentMode         // "A different mode has already been set!"
    | UnknownMode           // std::map::at on a mode without a table
    | InvalidChannel        // "Channel X is invalid"
    | NotGpio               // "Channel X is not a GPIO"
    | NotPwm                // "Channel X is not a PWM"
    | AlreadyPwm            // "Channel X already running as PWM."
    | InitialForInput       // "initial parameter is not valid for inputs"
    | InvalidDirection      // "GPIO direction must be GPIO::IN or GPIO::OUT"
    | NotSetUp              // "You must setup() the GPIO channel first"
    | NotOutput             // "The GPIO channel has not been set up as an OUTPUT"
    | NotInput              // "You must setup() the GPIO channel as an input first"
    | InvalidEdge           // "argument 'edge' must be set to RISING, FALLING or BOTH"
    | NullCallback          // "callback cannot be null"
    | NoEdgeEvent           // "The edge event must have been set via add_event_detect()"
    | EventError(code: int) // an EventResultCode other than the expected ones
    | CallbackAddFailed     // "Couldn't add callback due to unknown error ..."
    | LengthMismatch        // "Number of values != number of channels"
    | PermissionDenied      // "Permission denied: path: ..."
    | CannotOpen            // "Can't open <path>"
    | InvalidFrequency      // "Invalid frequency"
    | InvalidDutyCycle      // "invalid duty_cycle_percent"
    | DuplicatePwm          // "Can't create duplicate PWM objects"
    | UnknownSocModel       // "Could not determine SOC model"
    | MissingGpioChip       // "Cannot find GPIO chip <name>"
    | NotInGpioChipDirs     // "[model_data]<dir> is not in gpio_chip_dirs"
    | ModelNameError        // "get_model error"
    | CannotListDirectory   // "could not open directory: <path>"
    | InvalidChipBase       // std::stoi on a gpiochip base file that holds no number

  /** A value or the error that prevented computing it. */
  datatype Result<+T> = Ok(value: T) | Err(error: Error) {
    predicate IsFailure() { Err? }
    function PropagateFailure<U>(): Result<U>
      requires Err?
    {
      Err(error)
    }
    function Extract(): T
      requires Ok?
    {
      value
    }
  }

  /** An optional value (a map lookup, the first match of a search). */
  datatype Maybe<+T> = Nothing | Just(value: T)

  /** Success without a value, or the error. */
  datatype Outcome = Pass | Fail(error: Error)
}
