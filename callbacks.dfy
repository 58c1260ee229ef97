/** The callback-data names of the bot's inline buttons (internal/handler/callback_type.go). */
module Callbacks {
  const CallbackBuy: string := "buy"
  const CallbackSell: string := "sell"
  const CallbackStart: string := "start"
  const CallbackConnect: string := "connect"
  const CallbackPayment: string := "payment"
  const CallbackTrial: string := "trial"
  const CallbackActivateTrial: string := "activate_trial"
  const CallbackReferral: string := "referral"
}
