/** The two exception classes the library throws, with their messages. */
module Exceptions {

  datatype Exception =
    | ClientException(message: string)     // CentrifugeClientException
    | TransportException(message: string)  // TransportException
}
