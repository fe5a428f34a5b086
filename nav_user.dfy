/** The sidebar user menu (components/nav-user.tsx): its logout removes the two
    localStorage keys directly, shows a toast and goes home; when storage access
    throws, it shows a failure toast and stays. The menu also opens the wallet
    dialog. */
module NavUser {
  import opened Common
  import opened Storage

  datatype Variant = Default | Destructive

  datatype Toast = Toast(title: string, variant: Variant)

  const LOGGED_OUT := "User logged out Successfully"
  const LOGOUT_FAILED := "Failed to logout. Please try again."

  /** The outcome of `handleLogout`. `accessible` is false when `localStorage`
      throws (no window, or storage access denied). */
  datatype LogoutOutcome = LogoutOutcome(toast: Toast, navigation: Option<string>, items: LocalStore)

  function LogoutResult(items: LocalStore, accessible: bool): (o: LogoutOutcome)
    // Success: both keys gone, signed out, the success toast and a move to the home page.
    ensures accessible ==>
      o.items == Cleared(items, true) && o.navigation == Some("/") && o.toast == Toast("User logged out Successfully", Default)
    // Failure: nothing removed, no navigation, the destructive toast.
    ensures !accessible ==>
      o.items == items && o.navigation == None && o.toast == Toast("Failed to logout. Please try again.", Destructive)
    ensures o.navigation.Some? <==> o.toast.variant == Default
  {
    if accessible then LogoutOutcome(Toast(LOGGED_OUT, Default), Some("/"), items - {OAUTH_STATE_KEY} - {AUTH_KEY})
    else LogoutOutcome(Toast(LOGOUT_FAILED, Destructive), None, items)
  }

  /** A successful logout leaves no valid session and no pending OAuth state. */
  lemma LogoutSignsOut(items: LocalStore, now: int)
    ensures !IsAuthenticatedIn(LogoutResult(items, true).items, true, now)
    ensures SavedOAuthState(LogoutResult(items, true).items) == None
  {
    ClearedIsSignedOut(items, now);
  }

  class NavUserMenu {
    var walletDialogOpen: bool
    const store: BrowserStorage

    constructor (store: BrowserStorage)
      ensures this.store == store && !walletDialogOpen
    {
      this.store := store;
      walletDialogOpen := false;
    }

    /** `handleLogout`: the two removals in source order, the first of which throws
        when storage is not accessible. */
    method HandleLogout(denied: bool) returns (toast: Toast, navigation: Option<string>)
      modifies store
      ensures var o := LogoutResult(old(store.items), store.windowed && !denied);
        toast == o.toast && navigation == o.navigation && store.items == o.items
    {
      if !store.windowed || denied {
        toast := Toast(LOGOUT_FAILED, Destructive);
        navigation := None;
        return;
      }
      store.RemoveItem(OAUTH_STATE_KEY);
      store.RemoveItem(AUTH_KEY);
      toast := Toast(LOGGED_OUT, Default);
      navigation := Some("/");
    }

    /** Selecting "Connect to Web3 wallet", or the dialog's `onOpenChange`. */
    method SetWalletDialogOpen(open: bool)
      modifies this
      ensures walletDialogOpen == open
    {
      walletDialogOpen := open;
    }
  }
}
