/** The errors the adapter returns, one constructor per distinct `fmt.Errorf` site. */
module KubecostErrors {

  datatype Error =
    /** "invalid base URL: %w" */
    | InvalidBaseURL(baseURL: string)
    /** "executing request: %w" */
    | ExecutingRequest(reason: string)
    /** the transport error of `Allocation`, returned unwrapped */
    | Transport(reason: string)
    /** "kubecost API error: status=%d, body=%s" */
    | ApiStatus(status: int, body: string)
    /** "decoding response: %w" */
    | DecodingResponse
    /** the decoder error of `Allocation`, returned unwrapped */
    | DecodeFailed
    /** "kubecost API returned error code %d: %s" */
    | ApiCode(code: int, message: string)
    /** "kubecost %d" */
    | AllocationStatus(status: int)
    /** "kubecost prediction API error: status=%d" */
    | PredictionStatus(status: int)
    /** "invalid duration format: %s" */
    | InvalidDurationFormat(window: string)
}
