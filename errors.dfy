/** The program's error codes and the runtime failures that abort an instruction. */
module Errors {

  /** The program's own error enum, in declaration order. */
  datatype ErrorCode =
    | MarketResolved
    | MarketNotResolved
    | MarketExpired
    | MarketNotExpired
    | InvalidOutcome
    | UserAlreadyInitialized
    | BetAlreadyClaimed
    | BetLost
    | InsufficientFunds
    | Unauthorized

  /**
   * Why an instruction aborted. Besides the program's `require!` errors, the
   * account constraints and the runtime can abort the whole transaction.
   */
  datatype Failure =
    | Program(code: ErrorCode)
    | AccountNotInitialized    // a required account holds no record of the expected kind
    | AccountAlreadyInUse      // `init` at an address that already holds an account
    | ConstraintSeeds          // an account is not at the address its seeds derive
    | ConstraintAddress        // `address = ...` does not hold
    | AccountDidNotSerialize   // the record outgrew the space allocated for it
    | Panic                    // an out-of-range slice
    | ArithmeticOverflow       // checked integer arithmetic overflowed
    | InsufficientLamports     // a system transfer from an account holding too little
}
